/** The upload helpers: the validation decision for an uploaded file, the
    storage resize decision and the base 64 text used to show an image.

    The imaging library is abstract here: what decoding the upload yields is
    part of the input (`Decoding`), and the size a thumbnail comes out at is
    a parameter. */
module Helpers {
  import opened Outcomes
  import Base64
  import opened Text

  /** Upload limits. */
  const MaxFileSize: nat := 16 * 1024 * 1024
  const MinDimension: nat := 256
  const MaxDimension: nat := 4096

  /** The longest side an image is stored with. */
  const StorageMaxSide: nat := 1024

  const NoFileMessage: string := "No file provided"
  const FileSizeMessage: string := "File size must be less than 16MB"
  const TooSmallMessage: string := "Image must be at least 256x256 pixels"
  const TooLargeMessage: string := "Image must be less than 4096x4096 pixels"
  const InvalidImagePrefix: string := "Invalid image file: "

  /** What opening and verifying the file as an image gives: its size in
      pixels, or the text of the exception the imaging library raised. */
  datatype Decoding = Decoded(width: nat, height: nat) | Undecodable(error: string)

  /** An uploaded file: its name, its length in bytes and its decoding. */
  datatype Upload = Upload(filename: string, size: nat, decoding: Decoding)

  /** The `(is_valid, error_message)` pair. */
  datatype Verdict = Verdict(isValid: bool, message: string)

  /** `if not file`: the form field is missing, or a file storage object is
      false because it has an empty file name. */
  predicate Provided(file: Option<Upload>)
  {
    file.Some? && file.value.filename != ""
  }

  predicate InRange(n: nat)
  {
    MinDimension <= n <= MaxDimension
  }

  /** What an acceptable upload is, stated without the order of the checks:
      a named file of at most 16 MiB that decodes to an image whose sides are
      both between 256 and 4096 pixels, bounds included. */
  predicate Acceptable(file: Option<Upload>)
  {
    && Provided(file)
    && file.value.size <= MaxFileSize
    && file.value.decoding.Decoded?
    && InRange(file.value.decoding.width)
    && InRange(file.value.decoding.height)
  }

  /** The five kinds of rejection message. */
  predicate IsRejectionMessage(m: string)
  {
    || m == NoFileMessage
    || m == FileSizeMessage
    || m == TooSmallMessage
    || m == TooLargeMessage
    || StartsWith(m, InvalidImagePrefix)
  }

  /** `validate_image`: the checks in order, presence, byte size, minimum
      sides, maximum sides, with a decoding failure reported as an invalid
      image. */
  function ValidateImage(file: Option<Upload>): (v: Verdict)
    ensures v.isValid <==> Acceptable(file)
    ensures v.isValid <==> v.message == ""
    ensures !v.isValid ==> IsRejectionMessage(v.message)
  {
    if !Provided(file) then Verdict(false, NoFileMessage)
    else
      var upload := file.value;
      if upload.size > MaxFileSize then Verdict(false, FileSizeMessage)
      else
        match upload.decoding
        case Undecodable(e) => Verdict(false, InvalidImagePrefix + e)
        case Decoded(w, h) =>
          if w < MinDimension || h < MinDimension then Verdict(false, TooSmallMessage)
          else if w > MaxDimension || h > MaxDimension then Verdict(false, TooLargeMessage)
          else Verdict(true, "")
  }

  /** A missing file is reported as such whatever else is wrong with it. */
  lemma MissingFileFirst(file: Option<Upload>)
    requires !Provided(file)
    ensures ValidateImage(file) == Verdict(false, NoFileMessage)
  {
  }

  /** The byte size is checked before the file is decoded: an oversized file
      gets the size message whatever its content is. */
  lemma SizeCheckedBeforeDecoding(upload: Upload, other: Decoding)
    requires upload.filename != "" && upload.size > MaxFileSize
    ensures ValidateImage(Some(upload)) == Verdict(false, FileSizeMessage)
    ensures ValidateImage(Some(upload)) == ValidateImage(Some(upload.(decoding := other)))
  {
  }

  /** The minimum check precedes the maximum check: a side below 256 gives
      the minimum message even when the other side is above 4096. */
  lemma MinimumCheckedBeforeMaximum(upload: Upload)
    requires upload.filename != "" && upload.size <= MaxFileSize
    requires upload.decoding.Decoded?
    requires upload.decoding.width < MinDimension || upload.decoding.height < MinDimension
    ensures ValidateImage(Some(upload)) == Verdict(false, TooSmallMessage)
  {
  }

  /** The limits are inclusive: exactly 16 MiB, and sides of exactly 256 or
      exactly 4096 pixels, pass; one byte or one pixel more fails. */
  lemma BoundariesInclusive(name: string)
    requires name != ""
    ensures ValidateImage(Some(Upload(name, MaxFileSize, Decoded(256, 4096)))) == Verdict(true, "")
    ensures ValidateImage(Some(Upload(name, MaxFileSize, Decoded(4096, 256)))) == Verdict(true, "")
    ensures ValidateImage(Some(Upload(name, MaxFileSize + 1, Decoded(256, 256)))) == Verdict(false, FileSizeMessage)
    ensures ValidateImage(Some(Upload(name, 0, Decoded(255, 4096)))) == Verdict(false, TooSmallMessage)
    ensures ValidateImage(Some(Upload(name, 0, Decoded(4097, 256)))) == Verdict(false, TooLargeMessage)
    ensures ValidateImage(Some(Upload(name, 0, Decoded(100, 5000)))) == Verdict(false, TooSmallMessage)
  {
  }

  /** An undecodable file is rejected with the decoder's error after the
      fixed prefix, which is never empty. */
  lemma UndecodableRejected(upload: Upload)
    requires upload.filename != "" && upload.size <= MaxFileSize
    requires upload.decoding.Undecodable?
    ensures ValidateImage(Some(upload)).message == InvalidImagePrefix + upload.decoding.error
    ensures !ValidateImage(Some(upload)).isValid
  {
  }

  predicate FitsStorage(width: nat, height: nat)
  {
    width <= StorageMaxSide && height <= StorageMaxSide
  }

  /** The condition of `process_image_for_storage` under which the image is
      thumbnailed. */
  predicate NeedsResize(width: nat, height: nat)
  {
    width > StorageMaxSide || height > StorageMaxSide
  }

  /** The size an image is stored at. `thumbnail` is the size the imaging
      library's thumbnail operation produces for a 1024 by 1024 box, which
      fits that box. */
  function StoredDimensions(width: nat, height: nat, thumbnail: (nat, nat)): (r: (nat, nat))
    requires FitsStorage(thumbnail.0, thumbnail.1)
    ensures FitsStorage(r.0, r.1)
    ensures FitsStorage(width, height) ==> r == (width, height)
    ensures r != (width, height) ==> r == thumbnail
  {
    if NeedsResize(width, height) then thumbnail else (width, height)
  }

  /** `image_bytes_to_base64`: the base 64 text of the bytes, which decodes
      back to them, four characters for every started group of three bytes. */
  function ImageBytesToBase64(image: Base64.Bytes): (r: string)
    ensures Base64.Decode(r) == Some(image)
    ensures |r| == 4 * ((|image| + 2) / 3)
    ensures Base64.PaddedFrom(r, |r| - Base64.PadCount(|image|))
  {
    Base64.DecodeEncode(image);
    Base64.EncodePadding(image);
    Base64.Encode(image)
  }
}
