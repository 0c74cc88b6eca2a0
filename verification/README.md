# Shaggy-dog transformation core, modelled in Dafny

The application turns an uploaded headshot into three generated images: two
transition pictures between the person and a dog breed, and a final dog
portrait. This project models the logic that does not live in a library:

- the transformation pipeline `generate_dog_transformation`, and the three
  service functions it calls (`identify_dog_breed`, `generate_transition_image`,
  `generate_dog_image`);
- the prompt templates those functions build;
- the upload checks in `validate_image`, the storage resize decision of
  `process_image_for_storage`, and `image_bytes_to_base64`;
- the base 64 encoding of section 4 of RFC 4648 and the `data:` URL of
  section 3 of RFC 2397 that carries an image to the vision model.

The remote provider is a `Provider` value in `openai_service.dfy`. It holds
three total functions: identify, describe and generate. Each takes the
position of the call within the run and the request, and returns a reply or
the text of the exception the call raised. The position lets two describe
calls with the same request get different replies. A run records a trace
of events: progress reports and remote calls, in order. The trace is an
ordinary field of the `Run` result. It is not ghost. The progress callback is a
boolean that says whether a callback was passed. The callback is assumed not
to raise.

Files:
- `outcomes.dfy`: `Option`, and `Result` with the `except … raise
  Exception(prefix + str(e))` wrapping.
- `text.dfy`: Python's `str.strip()` over the `str.isspace` characters, and
  substring relations.
- `base64.dfy`: RFC 4648 encoding and a strict decoder, with both round trips.
- `data_url.dfy`: the `data:image/jpeg;base64,` URL.
- `helpers.dfy`: the `app/utils/helpers.py` decisions.
- `prompts.dfy`: the prompt templates.
- `openai_service.dfy`: the service functions and the pipeline.
- `pipeline_properties.dfy`: the plan every run follows. A run's events are
  a prefix of the plan and it stops at the first failure.
- `pipeline_theorems.dfy`: properties of whole runs, each derived from that
  plan or from a one-piece reference definition of a complete run.

Notes on what the code does:
- The pipeline's last progress report is 80 percent
  (`app/services/openai_service.py:279-280`). Nothing in the modelled files
  reports 100 percent or resets progress on an error, and nothing there
  calls `generate_dog_transformation`.
- The transition wording is "mostly human but with subtle {breed} dog
  features beginning to emerge" below 0.5. It is "mostly {breed} dog but
  retains some human characteristics" from 0.5 up.
- The limits are inclusive: 16 MiB exactly, and sides of exactly 256 or 4096
  pixels, are accepted. The rejection messages say "less than 16MB" and "less
  than 4096x4096".

## Model

| member | source | states |
|---|---|---|
| Text.Strip | app/services/openai_service.py:74 | the stripped reply is a contiguous piece of the reply, with only whitespace cut from either side and no whitespace at either end |
| Text.StripIdempotent | app/services/openai_service.py:179 | stripping an already stripped reply changes nothing |
| Base64.Encode | app/utils/helpers.py:91-101 | the encoding of n bytes has 4·⌈n/3⌉ characters |
| Base64.EncodePadding | app/utils/helpers.py:100-101 | an encoding is alphabet characters followed by exactly the 0, 1 or 2 pad characters that complete the last group |
| Base64.DecodeEncode | app/utils/helpers.py:100-101 | decoding an encoding gives back the original bytes |
| Base64.EncodeDecode | app/utils/helpers.py:100-101 | every text the strict decoder accepts is the encoding of what it returns |
| Base64.DecodeIffEncode | app/utils/helpers.py:100-101 | a text decodes to some bytes exactly when it is their encoding |
| DataUrl.JpegDataUrl | app/services/openai_service.py:35 | the image URL starts with the `data:image/jpeg;base64,` prefix and has the length of that prefix plus the base 64 text |
| DataUrl.ParseIffBuild | app/services/openai_service.py:62 | a URL carries an image exactly when it is the URL built from that image |
| DataUrl.JpegDataUrlInjective | app/services/openai_service.py:169 | different images are sent as different URLs |
| Helpers.ValidateImage | app/utils/helpers.py:15-55 | an upload is valid exactly when it has a file name, at most 16 MiB, decodes, and has both sides within 256..4096; valid exactly when the message is empty; every rejection carries one of the five messages |
| Helpers.MissingFileFirst | app/utils/helpers.py:24-25 | a missing file is reported as "No file provided" whatever else is wrong |
| Helpers.SizeCheckedBeforeDecoding | app/utils/helpers.py:27-33 | an oversized file gets the size message whatever it decodes to |
| Helpers.MinimumCheckedBeforeMaximum | app/utils/helpers.py:45-49 | a side below 256 gives the minimum message even when the other side is above 4096 |
| Helpers.BoundariesInclusive | app/utils/helpers.py:32-49 | exactly 16 MiB and sides of exactly 256 and 4096 pass; one more byte or pixel fails; 100×5000 gets the minimum message |
| Helpers.UndecodableRejected | app/utils/helpers.py:36-55 | an undecodable file is rejected with "Invalid image file: " and the decoder's error |
| Helpers.StoredDimensions | app/utils/helpers.py:78-81 | an image within 1024×1024 keeps its size; a larger one is stored at the thumbnail size, which fits 1024×1024 |
| Helpers.ImageBytesToBase64 | app/utils/helpers.py:91-101 | the text decodes back to the bytes, has 4·⌈n/3⌉ characters and only alphabet characters before the padding |
| Prompts.LeaningOf | app/services/openai_service.py:182-195 | a level leans human exactly when it is below 0.5 |
| Prompts.StageLeanings | app/services/openai_service.py:262-268 | level 0.33 leans human, 0.66 leans dog, 0.5 itself leans dog |
| Prompts.DescriptionShape | app/services/openai_service.py:182-195 | a transition description opens with its leaning's wording around the breed and ends with "Based on: " and the description |
| Prompts.DescriptionDependsOnLeaningOnly | app/services/openai_service.py:182-195 | two levels give the same description exactly when they lean the same way |
| Prompts.DescriptionContains | app/services/openai_service.py:184-195 | a transition description names the breed and carries the person's description |
| Prompts.DogImagePromptContains | app/services/openai_service.py:96-100 | the dog image prompt names the breed and the stage |
| Prompts.DogImagePromptDeterminesBreed | app/services/openai_service.py:96-100 | for a fixed stage, equal prompts mean equal breeds |
| Prompts.TransitionPromptContains | app/services/openai_service.py:198-202 | a transition prompt names the breed, carries its leaning's wording and the person's description |
| OpenAIService.IdentifyDogBreed | app/services/openai_service.py:19-78 | one vision call on the image URL; the breed is the stripped reply; a failure is "Failed to identify dog breed: " and the exception text |
| OpenAIService.GenerateTransitionImage | app/services/openai_service.py:125-221 | a describe call on the image URL, then, only if it succeeded, one generation call; success exactly when both succeed; the image is the generated one; a failure of either is "Failed to generate transition image: " and that call's exception text |
| OpenAIService.TransitionRequest | app/services/openai_service.py:179-202 | the generation request names the breed, uses the level's wording and is based on the stripped description just obtained |
| OpenAIService.GenerateDogImage | app/services/openai_service.py:81-122 | one generation call whose request is the dog image prompt of the breed and the stage; success exactly when it succeeds; the image is the generated one; a failure is "Failed to generate dog image: " and the exception text |
| OpenAIService.DogImageRequest | app/services/openai_service.py:96-100 | the request of a dog image step names the breed and the stage |
| OpenAIService.GenerateDogTransformation | app/services/openai_service.py:224-290 | a run always does something, and every failure begins "Dog transformation failed: "; its order, checkpoints and results are stated by the `PipelineProperties` and `PipelineTheorems` rows |
| OpenAIService.FirstTransition | app/services/openai_service.py:258-262 | the step extends the trace it is given, keeps the breed in its result, and wraps every failure under "Dog transformation failed: " |
| OpenAIService.SecondTransition | app/services/openai_service.py:264-268 | the step extends the trace, keeps the breed and the first transition image in its result, and wraps every failure under "Dog transformation failed: " |
| OpenAIService.FinalImage | app/services/openai_service.py:270-287 | the step extends the trace; a result holds the breed and the two transition images it was given, plus the final image; every failure is wrapped under "Dog transformation failed: " |
| Outcomes.Result.Wrap | app/services/openai_service.py:77-78 | wrapping keeps a success unchanged; a failure's message becomes the prefix followed by the original message |
| Prompts.DogImagePrompt | app/services/openai_service.py:96-100 | the template over breed and stage; its properties are in `Prompts.DogImagePromptContains` and `Prompts.DogImagePromptDeterminesBreed` |
| Prompts.TransitionDescription | app/services/openai_service.py:182-195 | the level-dependent description; its properties are in `Prompts.DescriptionShape`, `Prompts.DescriptionDependsOnLeaningOnly` and `Prompts.DescriptionContains` |
| Prompts.TransitionPrompt | app/services/openai_service.py:198-202 | the transition template; its properties are in `Prompts.TransitionPromptContains` |
| PipelineProperties.RunSkeleton | app/services/openai_service.py:250-290 | every run's events are a prefix of the fixed plan of reports and calls; every event before the last succeeded; the run succeeds exactly when it completed the plan; otherwise it ends at the failed call and reports it under both prefixes |
| PipelineTheorems.SuccessfulProgress | app/services/openai_service.py:252-280 | a complete run reports exactly 10, 20, 40, 60, 80 with a callback and nothing without one |
| PipelineTheorems.ProgressIncreases | app/services/openai_service.py:250-281 | any run, complete or not, reports a prefix of 10, 20, 40, 60, 80, which is strictly increasing |
| PipelineTheorems.EightyOnlyOnSuccess | app/services/openai_service.py:270-287 | 80 percent is reported only when every remote call succeeded and a result is returned |
| PipelineTheorems.NothingAfterFailure | app/services/openai_service.py:250-290 | a failed remote call is the last event of its run and the run returns no result |
| PipelineTheorems.FailureEndsAtFailedCall | app/services/openai_service.py:289-290 | a run without a result ended at a failed remote call |
| PipelineTheorems.ErrorMessageShape | app/services/openai_service.py:289-290 | every failure is "Dog transformation failed: " followed by one of the three inner prefixes and the exception text of the failed call |
| PipelineTheorems.AllOrNothing | app/services/openai_service.py:224-290 | a run returns a result exactly when all six remote calls succeed, and then equals the complete run written out in one piece |
| PipelineTheorems.CallbackIrrelevant | app/services/openai_service.py:250-287 | with or without a callback, a run makes the same remote calls in the same order and returns the same result or error |
| PipelineTheorems.SuccessfulResult | app/services/openai_service.py:255-287 | the result's breed is the stripped identify reply; the images come from the 0.33 transition, the 0.66 transition and the final portrait, in that order |
| PipelineTheorems.SuccessfulCalls | app/services/openai_service.py:255-277 | a successful run makes six calls: identify, then describe and generate twice (both describes on the original image), then the final generation |
| PipelineTheorems.SuccessfulRequests | app/services/openai_service.py:255-277 | the exact requests of the six calls of a successful run |
| PipelineTheorems.SuccessfulPrompts | app/services/openai_service.py:182-202 | every generation prompt names the breed; the first transition uses the human wording, the second the dog wording, each based on its own stripped description; the final prompt is the breed with "facing forward, friendly expression, full portrait" |
| PipelineTheorems.FinalPortraitIgnoresImage | app/services/openai_service.py:270-277 | two successful runs that identify the same breed send the same final request, whatever the images; so the same provider gives them the same final image |
| PipelineTheorems.EveryGenerationNamesBreed | app/services/openai_service.py:255-277 | in every run, complete or failed, each generation request names the stripped breed reply |

## Left out

- The OpenAI SDK requests and the image download are the `Provider` oracles. Models, token limits, sizes and quality settings are not modelled.
- Only the `data:` URL of the image and the prompt are recorded as a remote request. The system and user instruction texts are fixed. They are not part of the request.
- Image decoding, verification, mode conversion, thumbnail arithmetic and JPEG recompression belong to the imaging library. Decoding is the `Decoding` input of an upload. The thumbnail size is a parameter of `Helpers.StoredDimensions`.
- `Helpers.StoredDimensions`: only the resize decision is modelled. The aspect ratio of the thumbnail is not, because the imaging library computes it.
- The file's byte size is an input. The `seek`/`tell` calls that measure it are stream I/O.
- `print` calls in the pipeline are console output and are left out.
- The callback is assumed not to raise. If it raised, the source would wrap its exception like a remote failure.
- The progress tracker, background thread, staging area, routes, forms, database models, password hashing, configuration and application wiring are outside the modelled core. They are request handling, concurrency or library behaviour.
- The transition level is a `real`. Only its comparison with 0.5 matters, so floating-point rounding is not modelled.
- The base 64 decoder is strict: it accepts only canonical encodings. Python's lenient decoding of other text is not modelled. The source only ever encodes.
