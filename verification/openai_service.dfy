/** The calls to the remote vision and image-generation provider and the
    transformation pipeline built from them.

    The provider is abstract: a `Provider` answers each remote request with
    a reply or with the text of the exception the call raised. A run records
    what it did as a trace of events: the progress reports it made and the
    remote requests it sent, in order. */
module OpenAIService {
  import opened Outcomes
  import opened Text
  import Base64
  import DataUrl
  import Prompts

  type Bytes = Base64.Bytes

  /** The prefixes each function puts before the text of a caught exception. */
  const IdentifyFailure: string := "Failed to identify dog breed: "
  const TransitionFailure: string := "Failed to generate transition image: "
  const DogImageFailure: string := "Failed to generate dog image: "
  const TransformationFailure: string := "Dog transformation failed: "

  /** The three remote capabilities: the breed question and the description
      request to the vision model, and an image generation followed by the
      download of the generated image. */
  datatype Service = Identify | Describe | Generate

  /** What a run does, in order: a progress report, or a remote call. A call
      records its position among the remote calls of the run, counted from
      0, the service it goes to and the request it sends: the image's data
      URL for the vision model, the prompt for generation. */
  datatype Event =
    | Progress(percent: int, message: string)
    | Call(service: Service, position: nat, request: string)

  /** The remote provider. Each capability receives the position of the call
      and the request, and answers with the reply (the text before
      stripping, or the downloaded image bytes) or with the text of the
      exception the call raised. The position lets two calls with the same
      request get different answers, as remote models do. */
  datatype Provider = Provider(
    identify: (nat, string) -> Result<string>,
    describe: (nat, string) -> Result<string>,
    generate: (nat, string) -> Result<Bytes>)

  /** What one service function returns or raises, and the remote calls it
      made. */
  datatype Step<T> = Step(result: Result<T>, calls: seq<Event>)

  /** The provider answers the event with a failure; progress reports never
      fail. */
  predicate Fails(p: Provider, e: Event)
  {
    match e
    case Progress(_, _) => false
    case Call(service, position, request) =>
      match service
      case Identify => p.identify(position, request).Err?
      case Describe => p.describe(position, request).Err?
      case Generate => p.generate(position, request).Err?
  }

  /** The text of the exception a failed remote call raised. */
  function FailureText(p: Provider, e: Event): string
  {
    match e
    case Progress(_, _) => ""
    case Call(service, position, request) =>
      match service
      case Identify => var r := p.identify(position, request); if r.Err? then r.message else ""
      case Describe => var r := p.describe(position, request); if r.Err? then r.message else ""
      case Generate => var r := p.generate(position, request); if r.Err? then r.message else ""
  }

  /** `identify_dog_breed`: one vision call on the image's data URL; the
      breed is the stripped reply, a failure is reported under the identify
      prefix. */
  function IdentifyDogBreed(p: Provider, position: nat, image: Bytes): (s: Step<string>)
    ensures s.calls == [Call(Identify, position, DataUrl.JpegDataUrl(image))]
    ensures s.result.Ok? <==> !Fails(p, s.calls[0])
    ensures s.result.Ok? ==> IsStripOf(p.identify(position, s.calls[0].request).value, s.result.value)
    ensures s.result.Err? ==> s.result.message == IdentifyFailure + FailureText(p, s.calls[0])
  {
    var url := DataUrl.JpegDataUrl(image);
    var breed := match p.identify(position, url)
                 case Ok(text) => Ok(Strip(text))
                 case Err(e) => Err(e);
    Step(breed.Wrap(IdentifyFailure), [Call(Identify, position, url)])
  }

  /** `generate_transition_image`: a description call on the image's data
      URL, then a generation call whose prompt is built from the breed, the
      stripped description and the level. A failure of either call is
      reported under the transition prefix, and a failed description call
      is not followed by a generation call. */
  function GenerateTransitionImage(p: Provider, position: nat, image: Bytes, breed: string, level: real)
    : (s: Step<Bytes>)
    ensures 1 <= |s.calls| <= 2
    ensures s.calls[0] == Call(Describe, position, DataUrl.JpegDataUrl(image))
    ensures |s.calls| == 2 <==> !Fails(p, s.calls[0])
    ensures |s.calls| == 2 ==>
              s.calls[1].Call? && s.calls[1].service == Generate && s.calls[1].position == position + 1
    ensures s.result.Ok? <==> |s.calls| == 2 && !Fails(p, s.calls[1])
    ensures s.result.Ok? ==> s.result.value == p.generate(position + 1, s.calls[1].request).value
    ensures s.result.Err? ==> s.result.message == TransitionFailure + FailureText(p, s.calls[|s.calls| - 1])
  {
    var url := DataUrl.JpegDataUrl(image);
    match p.describe(position, url)
    case Err(e) => Step(Err(TransitionFailure + e), [Call(Describe, position, url)])
    case Ok(text) =>
      var prompt := Prompts.TransitionPrompt(breed, Strip(text), level);
      var calls := [Call(Describe, position, url), Call(Generate, position + 1, prompt)];
      Step(p.generate(position + 1, prompt).Wrap(TransitionFailure), calls)
  }

  /** The generation call of a transition step asks for a picture of the
      breed, in the wording of the level's leaning, based on the stripped
      reply of the description call just before it. */
  lemma TransitionRequest(p: Provider, position: nat, image: Bytes, breed: string, level: real)
    ensures var s := GenerateTransitionImage(p, position, image, breed, level);
            |s.calls| == 2 ==>
              var description := Strip(p.describe(position, DataUrl.JpegDataUrl(image)).value);
              && Contains(s.calls[1].request, breed)
              && Contains(s.calls[1].request, Prompts.Opening(breed, Prompts.LeaningOf(level)))
              && Contains(s.calls[1].request, Prompts.BasedOn(description))
  {
    var url := DataUrl.JpegDataUrl(image);
    if p.describe(position, url).Ok? {
      var description := Strip(p.describe(position, url).value);
      var prompt := Prompts.TransitionPrompt(breed, description, level);
      assert GenerateTransitionImage(p, position, image, breed, level).calls[1].request == prompt;
      Prompts.TransitionPromptContains(breed, description, level);
    }
  }

  /** `generate_dog_image`: one generation call whose prompt is built from
      the breed and the stage; a failure is reported under the dog image
      prefix. */
  function GenerateDogImage(p: Provider, position: nat, breed: string, stage: string): (s: Step<Bytes>)
    ensures |s.calls| == 1 && s.calls[0].Call? && s.calls[0].service == Generate && s.calls[0].position == position
    ensures s.calls[0].request == Prompts.DogImagePrompt(breed, stage)
    ensures s.result.Ok? <==> !Fails(p, s.calls[0])
    ensures s.result.Ok? ==> s.result.value == p.generate(position, s.calls[0].request).value
    ensures s.result.Err? ==> s.result.message == DogImageFailure + FailureText(p, s.calls[0])
  {
    var prompt := Prompts.DogImagePrompt(breed, stage);
    Step(p.generate(position, prompt).Wrap(DogImageFailure), [Call(Generate, position, prompt)])
  }

  /** The request of a dog image step names the breed and the stage. */
  lemma DogImageRequest(p: Provider, position: nat, breed: string, stage: string)
    ensures var request := GenerateDogImage(p, position, breed, stage).calls[0].request;
            Contains(request, breed) && Contains(request, stage)
  {
    hide Prompts.DogImagePrompt;
    Prompts.DogImagePromptContains(breed, stage);
  }

  /** The dictionary a successful transformation returns, one field per key. */
  datatype Transformation = Transformation(
    breed: string,
    transition1: Bytes,
    transition2: Bytes,
    finalDog: Bytes)

  /** The outcome of a transformation run and its trace. */
  datatype Run = Run(result: Result<Transformation>, trace: seq<Event>)

  /** The progress report `if progress_callback: progress_callback(percent,
      message)`: an event when a callback was passed, nothing otherwise. */
  function Report(callback: bool, percent: int, message: string): seq<Event>
  {
    if callback then [Progress(percent, message)] else []
  }

  /** The run ends at a failed step: its calls are the last events, and the
      step's message is wrapped under the transformation prefix. */
  function Abort<T>(trace: seq<Event>, step: Step<T>): (r: Run)
    requires step.result.Err?
    ensures r.result.Err? && StartsWith(r.result.message, TransformationFailure)
  {
    Run(Err(TransformationFailure + step.result.message), trace + step.calls)
  }

  /** `generate_dog_transformation`, step 1: report 10 percent and identify
      the breed (remote position 0). The callback is assumed not to raise. */
  function GenerateDogTransformation(p: Provider, image: Bytes, callback: bool): (r: Run)
    ensures r.trace != []
    ensures r.result.Err? ==> StartsWith(r.result.message, TransformationFailure)
  {
    var trace := Report(callback, 10, "Identifying dog breed...");
    var identified := IdentifyDogBreed(p, 0, image);
    if identified.result.Err? then Abort(trace, identified)
    else FirstTransition(p, image, callback, identified.result.value, trace + identified.calls)
  }

  /** Step 2: report 20 percent and generate the first transition image at
      level 0.33 (remote positions 1 and 2). */
  function FirstTransition(p: Provider, image: Bytes, callback: bool, breed: string, trace: seq<Event>): (r: Run)
    ensures |trace| < |r.trace| && r.trace[..|trace|] == trace
    ensures r.result.Ok? ==> r.result.value.breed == breed
    ensures r.result.Err? ==> StartsWith(r.result.message, TransformationFailure)
  {
    var trace := trace + Report(callback, 20, "Generating first transition to " + breed + "...");
    var first := GenerateTransitionImage(p, 1, image, breed, Prompts.FirstTransitionLevel);
    if first.result.Err? then Abort(trace, first)
    else SecondTransition(p, image, callback, breed, first.result.value, trace + first.calls)
  }

  /** Step 3: report 40 percent and generate the second transition image at
      level 0.66 (remote positions 3 and 4). */
  function SecondTransition(p: Provider, image: Bytes, callback: bool, breed: string,
                            transition1: Bytes, trace: seq<Event>): (r: Run)
    ensures |trace| < |r.trace| && r.trace[..|trace|] == trace
    ensures r.result.Ok? ==> r.result.value.breed == breed && r.result.value.transition1 == transition1
    ensures r.result.Err? ==> StartsWith(r.result.message, TransformationFailure)
  {
    var trace := trace + Report(callback, 40, "Generating second transition to " + breed + "...");
    var second := GenerateTransitionImage(p, 3, image, breed, Prompts.SecondTransitionLevel);
    if second.result.Err? then Abort(trace, second)
    else FinalImage(p, callback, breed, transition1, second.result.value, trace + second.calls)
  }

  /** Step 4: report 60 percent, generate the final dog image from the breed
      and the fixed stage text alone (remote position 5), report 80 percent
      and return the four results. */
  function FinalImage(p: Provider, callback: bool, breed: string,
                      transition1: Bytes, transition2: Bytes, trace: seq<Event>): (r: Run)
    ensures |trace| < |r.trace| && r.trace[..|trace|] == trace
    ensures r.result.Ok? ==> r.result.value == Transformation(breed, transition1, transition2, r.result.value.finalDog)
    ensures r.result.Err? ==> StartsWith(r.result.message, TransformationFailure)
  {
    var trace := trace + Report(callback, 60, "Generating final " + breed + " image...");
    var portrait := GenerateDogImage(p, 5, breed, Prompts.FinalStage);
    if portrait.result.Err? then Abort(trace, portrait)
    else
      Run(Ok(Transformation(breed, transition1, transition2, portrait.result.value)),
          trace + portrait.calls + Report(callback, 80, "Almost done..."))
  }
}
