/** The promises of `generate_dog_transformation`, stated over whole runs:
    the progress checkpoints, all-or-nothing results, the single wrapped
    error, the contents of a successful result, the prompts the generator
    receives, and the irrelevance of the callback to what the run does. */
module PipelineTheorems {
  import opened Outcomes
  import opened Text
  import opened OpenAIService
  import opened PipelineProperties
  import DataUrl
  import Prompts

  /** The progress checkpoints of a complete run, in order. */
  const Checkpoints: seq<int> := [10, 20, 40, 60, 80]

  /** The percents a sequence of event kinds reports, in order. */
  function KindPercents(kinds: seq<Kind>): seq<int>
  {
    if kinds == [] then []
    else (if kinds[0].Reported? then [kinds[0].percent] else []) + KindPercents(kinds[1..])
  }

  /** The percents a trace reports to the callback, in order. */
  function Percents(trace: seq<Event>): seq<int>
  {
    KindPercents(Shape(trace))
  }

  predicate StrictlyIncreasing(s: seq<int>)
  {
    forall i, j :: 0 <= i < j < |s| ==> s[i] < s[j]
  }

  /** The remote calls of a trace, in order, without the progress reports. */
  function Calls(trace: seq<Event>): (r: seq<Event>)
    ensures forall i :: 0 <= i < |r| ==> r[i].Call?
  {
    if trace == [] then []
    else (if trace[0].Call? then [trace[0]] else []) + Calls(trace[1..])
  }

  lemma {:induction false} CallsAppend(a: seq<Event>, b: seq<Event>)
    ensures Calls(a + b) == Calls(a) + Calls(b)
    decreases |a|
  {
    if a == [] {
      assert a + b == b;
    } else {
      assert (a + b)[1..] == a[1..] + b;
      CallsAppend(a[1..], b);
    }
  }

  /** Reading off fewer kinds reads off a prefix of the percents. */
  lemma {:induction false} KindPercentsPrefix(kinds: seq<Kind>, n: nat)
    requires n <= |kinds|
    ensures KindPercents(kinds[..n]) <= KindPercents(kinds)
    decreases n
  {
    if n > 0 {
      KindPercentsPrefix(kinds[1..], n - 1);
      assert kinds[..n][1..] == kinds[1..][..n - 1];
    }
  }

  lemma PlanPercents()
    ensures KindPercents(LoudPlan) == Checkpoints
    ensures KindPercents(QuietPlan) == []
  {
  }

  /** A complete run with a callback reports exactly 10, 20, 40, 60 and 80
      percent, in that order, and a run without one reports nothing. */
  lemma SuccessfulProgress(p: Provider, image: Bytes, callback: bool)
    ensures GenerateDogTransformation(p, image, callback).result.Ok? ==>
              Percents(GenerateDogTransformation(p, image, callback).trace) == (if callback then Checkpoints else [])
  {
    hide GenerateDogTransformation;
    if GenerateDogTransformation(p, image, callback).result.Ok? {
      var run := GenerateDogTransformation(p, image, callback);
      RunSkeleton(p, image, callback);
      assert Shape(run.trace) == Plan(callback);
      PlanPercents();
    }
  }

  /** Every run, complete or not, reports a prefix of the checkpoints, so
      its progress only ever goes up. */
  lemma ProgressIncreases(p: Provider, image: Bytes, callback: bool)
    ensures Percents(GenerateDogTransformation(p, image, callback).trace) <= Checkpoints
    ensures StrictlyIncreasing(Percents(GenerateDogTransformation(p, image, callback).trace))
  {
    hide GenerateDogTransformation;
    var run := GenerateDogTransformation(p, image, callback);
    RunSkeleton(p, image, callback);
    SkeletonIncreases(p, callback, run);
  }

  lemma SkeletonIncreases(p: Provider, callback: bool, run: Run)
    requires Skeleton(p, callback, run)
    ensures Percents(run.trace) <= Checkpoints
    ensures StrictlyIncreasing(Percents(run.trace))
  {
    var n := |run.trace|;
    assert Shape(run.trace) == Plan(callback)[..n];
    KindPercentsPrefix(Plan(callback), n);
    PlanPercents();
    CheckpointPrefixIncreases(Percents(run.trace));
  }

  lemma CheckpointPrefixIncreases(ps: seq<int>)
    requires ps <= Checkpoints
    ensures StrictlyIncreasing(ps)
  {
    forall i, j | 0 <= i < j < |ps| ensures ps[i] < ps[j] {
      assert ps[i] == Checkpoints[i] && ps[j] == Checkpoints[j];
    }
  }

  /** 80 percent is reported only by a run whose remote calls all
      succeeded and which returns a result. */
  lemma EightyOnlyOnSuccess(p: Provider, image: Bytes, callback: bool)
    ensures var run := GenerateDogTransformation(p, image, callback);
            forall i | 0 <= i < |run.trace| && run.trace[i].Progress? && run.trace[i].percent == 80 ::
              run.result.Ok? && NoneFails(p, run.trace)
  {
    hide GenerateDogTransformation;
    var run := GenerateDogTransformation(p, image, callback);
    RunSkeleton(p, image, callback);
    forall i | 0 <= i < |run.trace| && run.trace[i].Progress? && run.trace[i].percent == 80
      ensures run.result.Ok? && NoneFails(p, run.trace)
    {
      SkeletonEighty(p, callback, run, i);
    }
  }

  lemma SkeletonEighty(p: Provider, callback: bool, run: Run, i: nat)
    requires Skeleton(p, callback, run)
    requires i < |run.trace| && run.trace[i].Progress? && run.trace[i].percent == 80
    ensures run.result.Ok? && NoneFails(p, run.trace)
  {
    var n := |run.trace|;
    assert Shape(run.trace)[i] == Reported(80);
    assert Plan(callback)[i] == Reported(80);
    assert callback && i == 10;
    assert !Fails(p, run.trace[n - 1]);
    forall k | 0 <= k < n ensures !Fails(p, run.trace[k]) {
      if k < n - 1 {
        assert run.trace[..n - 1][k] == run.trace[k];
      }
    }
  }

  /** A failing remote call is the last event of its run and the run
      returns no result: nothing is called or reported after it. */
  lemma NothingAfterFailure(p: Provider, image: Bytes, callback: bool)
    ensures var run := GenerateDogTransformation(p, image, callback);
            forall i | 0 <= i < |run.trace| && Fails(p, run.trace[i]) :: i == |run.trace| - 1 && run.result.Err?
  {
    hide GenerateDogTransformation;
    var run := GenerateDogTransformation(p, image, callback);
    RunSkeleton(p, image, callback);
    forall i | 0 <= i < |run.trace| && Fails(p, run.trace[i]) ensures i == |run.trace| - 1 && run.result.Err? {
      SkeletonStopsAtFailure(p, callback, run, i);
    }
  }

  lemma SkeletonStopsAtFailure(p: Provider, callback: bool, run: Run, i: nat)
    requires Skeleton(p, callback, run) && i < |run.trace| && Fails(p, run.trace[i])
    ensures i == |run.trace| - 1 && run.result.Err?
  {
    var n := |run.trace|;
    assert forall k | 0 <= k < n - 1 :: run.trace[..n - 1][k] == run.trace[k];
  }

  /** A run without a result ended at a failed remote call. */
  lemma FailureEndsAtFailedCall(p: Provider, image: Bytes, callback: bool)
    requires GenerateDogTransformation(p, image, callback).result.Err?
    ensures var run := GenerateDogTransformation(p, image, callback);
            run.trace != [] && run.trace[|run.trace| - 1].Call? && Fails(p, run.trace[|run.trace| - 1])
  {
    RunSkeleton(p, image, callback);
  }

  /** Every failure is one error under the transformation prefix, wrapping
      the prefix of the step that failed and the text of the remote
      exception. */
  lemma ErrorMessageShape(p: Provider, image: Bytes, callback: bool)
    requires GenerateDogTransformation(p, image, callback).result.Err?
    ensures var run := GenerateDogTransformation(p, image, callback);
            var last := run.trace[|run.trace| - 1];
            exists inner :: inner in {IdentifyFailure, TransitionFailure, DogImageFailure}
              && run.result.message == TransformationFailure + inner + FailureText(p, last)
  {
    hide GenerateDogTransformation;
    var run := GenerateDogTransformation(p, image, callback);
    RunSkeleton(p, image, callback);
    var last := run.trace[|run.trace| - 1];
    var inner := StagePrefix(last.position);
    assert inner in {IdentifyFailure, TransitionFailure, DogImageFailure};
  }

  /** A run in which every remote call succeeds, written out in one piece:
      the breed is the stripped reply of the breed question; each transition
      describes the image afresh and prompts with the stripped description;
      the final portrait is prompted from the breed and the fixed stage text
      alone. None when some remote call fails. */
  function CompleteRun(p: Provider, image: Bytes, callback: bool): Option<Run>
  {
    var url := DataUrl.JpegDataUrl(image);
    var identified := p.identify(0, url);
    var described1 := p.describe(1, url);
    var described3 := p.describe(3, url);
    if identified.Err? || described1.Err? || described3.Err? then None
    else
      var breed := Strip(identified.value);
      var prompt2 := Prompts.TransitionPrompt(breed, Strip(described1.value), Prompts.FirstTransitionLevel);
      var prompt4 := Prompts.TransitionPrompt(breed, Strip(described3.value), Prompts.SecondTransitionLevel);
      var prompt5 := Prompts.DogImagePrompt(breed, Prompts.FinalStage);
      var image2, image4, image5 := p.generate(2, prompt2), p.generate(4, prompt4), p.generate(5, prompt5);
      if image2.Err? || image4.Err? || image5.Err? then None
      else
        var trace :=
          Report(callback, 10, "Identifying dog breed...")
          + [Call(Identify, 0, url)]
          + Report(callback, 20, "Generating first transition to " + breed + "...")
          + [Call(Describe, 1, url), Call(Generate, 2, prompt2)]
          + Report(callback, 40, "Generating second transition to " + breed + "...")
          + [Call(Describe, 3, url), Call(Generate, 4, prompt4)]
          + Report(callback, 60, "Generating final " + breed + " image...")
          + [Call(Generate, 5, prompt5)]
          + Report(callback, 80, "Almost done...");
        Some(Run(Ok(Transformation(breed, image2.value, image4.value, image5.value)), trace))
  }

  /** All or nothing: a run returns a result exactly when all six remote
      calls succeed, and then it is the complete run above. */
  lemma AllOrNothing(p: Provider, image: Bytes, callback: bool)
    ensures GenerateDogTransformation(p, image, callback).result.Ok? <==> CompleteRun(p, image, callback).Some?
    ensures CompleteRun(p, image, callback).Some? ==>
              GenerateDogTransformation(p, image, callback) == CompleteRun(p, image, callback).value
  {
    hide Strip, Prompts.TransitionPrompt, Prompts.DogImagePrompt, DataUrl.JpegDataUrl;
  }

  /** A trace of remote calls alone is its own list of calls. */
  lemma {:induction false} CallsOfCalls(trace: seq<Event>)
    requires forall i :: 0 <= i < |trace| ==> trace[i].Call?
    ensures Calls(trace) == trace
    decreases |trace|
  {
    if trace != [] {
      CallsOfCalls(trace[1..]);
      assert trace == [trace[0]] + trace[1..];
    }
  }

  /** A progress report adds no remote call and, without a callback,
      nothing at all. */
  lemma ReportIsQuiet(loud: seq<Event>, quiet: seq<Event>, percent: int, message: string)
    requires Calls(loud) == quiet
    ensures Calls(loud + Report(true, percent, message)) == quiet + Report(false, percent, message)
  {
    CallsAppend(loud, Report(true, percent, message));
    assert quiet + Report(false, percent, message) == quiet;
    assert Calls(Report(true, percent, message)) == [];
  }

  /** A step's remote calls are kept as they are. */
  lemma StepIsKept<T>(loud: seq<Event>, quiet: seq<Event>, s: Step<T>)
    requires Calls(loud) == quiet
    requires forall i :: 0 <= i < |s.calls| ==> s.calls[i].Call?
    ensures Calls(loud + s.calls) == quiet + s.calls
  {
    CallsAppend(loud, s.calls);
    CallsOfCalls(s.calls);
  }

  lemma FinalImageQuiet(p: Provider, breed: string, t1: Bytes, t2: Bytes, loud: seq<Event>, quiet: seq<Event>)
    requires Calls(loud) == quiet
    ensures FinalImage(p, true, breed, t1, t2, loud).result == FinalImage(p, false, breed, t1, t2, quiet).result
    ensures Calls(FinalImage(p, true, breed, t1, t2, loud).trace) == FinalImage(p, false, breed, t1, t2, quiet).trace
  {
    hide Strip, Prompts.TransitionPrompt, Prompts.DogImagePrompt, DataUrl.JpegDataUrl;
    var m60 := "Generating final " + breed + " image...";
    var l, q := loud + Report(true, 60, m60), quiet + Report(false, 60, m60);
    ReportIsQuiet(loud, quiet, 60, m60);
    var portrait := GenerateDogImage(p, 5, breed, Prompts.FinalStage);
    StepIsKept(l, q, portrait);
    if portrait.result.Ok? {
      ReportIsQuiet(l + portrait.calls, q + portrait.calls, 80, "Almost done...");
    }
  }

  lemma SecondTransitionQuiet(p: Provider, image: Bytes, breed: string, t1: Bytes, loud: seq<Event>, quiet: seq<Event>)
    requires Calls(loud) == quiet
    ensures SecondTransition(p, image, true, breed, t1, loud).result == SecondTransition(p, image, false, breed, t1, quiet).result
    ensures Calls(SecondTransition(p, image, true, breed, t1, loud).trace) == SecondTransition(p, image, false, breed, t1, quiet).trace
  {
    hide Strip, Prompts.TransitionPrompt, Prompts.DogImagePrompt, DataUrl.JpegDataUrl, FinalImage;
    var m40 := "Generating second transition to " + breed + "...";
    var l, q := loud + Report(true, 40, m40), quiet + Report(false, 40, m40);
    ReportIsQuiet(loud, quiet, 40, m40);
    var second := GenerateTransitionImage(p, 3, image, breed, Prompts.SecondTransitionLevel);
    StepIsKept(l, q, second);
    if second.result.Ok? {
      FinalImageQuiet(p, breed, t1, second.result.value, l + second.calls, q + second.calls);
    }
  }

  lemma FirstTransitionQuiet(p: Provider, image: Bytes, breed: string, loud: seq<Event>, quiet: seq<Event>)
    requires Calls(loud) == quiet
    ensures FirstTransition(p, image, true, breed, loud).result == FirstTransition(p, image, false, breed, quiet).result
    ensures Calls(FirstTransition(p, image, true, breed, loud).trace) == FirstTransition(p, image, false, breed, quiet).trace
  {
    hide Strip, Prompts.TransitionPrompt, Prompts.DogImagePrompt, DataUrl.JpegDataUrl, SecondTransition;
    var m20 := "Generating first transition to " + breed + "...";
    var l, q := loud + Report(true, 20, m20), quiet + Report(false, 20, m20);
    ReportIsQuiet(loud, quiet, 20, m20);
    var first := GenerateTransitionImage(p, 1, image, breed, Prompts.FirstTransitionLevel);
    StepIsKept(l, q, first);
    if first.result.Ok? {
      SecondTransitionQuiet(p, image, breed, first.result.value, l + first.calls, q + first.calls);
    }
  }

  /** The callback only observes: a run without one makes the same remote
      calls, with the same requests and in the same order, as a run with
      one, and returns the same result or the same error. */
  lemma CallbackIrrelevant(p: Provider, image: Bytes)
    ensures GenerateDogTransformation(p, image, true).result == GenerateDogTransformation(p, image, false).result
    ensures Calls(GenerateDogTransformation(p, image, true).trace) == GenerateDogTransformation(p, image, false).trace
  {
    hide Strip, Prompts.TransitionPrompt, Prompts.DogImagePrompt, DataUrl.JpegDataUrl, FirstTransition;
    var m10 := "Identifying dog breed...";
    ReportIsQuiet([], [], 10, m10);
    assert [] + Report(true, 10, m10) == Report(true, 10, m10);
    var identified := IdentifyDogBreed(p, 0, image);
    StepIsKept(Report(true, 10, m10), [], identified);
    if identified.result.Ok? {
      FirstTransitionQuiet(p, image, identified.result.value, Report(true, 10, m10) + identified.calls, [] + identified.calls);
    }
  }

  /** A successful result holds the stripped breed reply and the images of
      the first transition (level 0.33), the second transition (level 0.66)
      and the final portrait, in that order. */
  lemma SuccessfulResult(p: Provider, image: Bytes, callback: bool)
    ensures GenerateDogTransformation(p, image, callback).result.Ok? ==>
              var t := GenerateDogTransformation(p, image, callback).result.value;
              var url := DataUrl.JpegDataUrl(image);
              && IsStripOf(p.identify(0, url).value, t.breed)
              && t.transition1 == p.generate(2, Prompts.TransitionPrompt(t.breed, Strip(p.describe(1, url).value), Prompts.FirstTransitionLevel)).value
              && t.transition2 == p.generate(4, Prompts.TransitionPrompt(t.breed, Strip(p.describe(3, url).value), Prompts.SecondTransitionLevel)).value
              && t.finalDog == p.generate(5, Prompts.DogImagePrompt(t.breed, Prompts.FinalStage)).value
  {
    hide GenerateDogTransformation, Prompts.TransitionPrompt, Prompts.DogImagePrompt, DataUrl.JpegDataUrl;
    if GenerateDogTransformation(p, image, callback).result.Ok? {
      AllOrNothing(p, image, callback);
    }
  }

  /** Without a callback a run's trace is its remote calls alone. */
  lemma QuietTraceIsCalls(p: Provider, image: Bytes)
    ensures Calls(GenerateDogTransformation(p, image, false).trace) == GenerateDogTransformation(p, image, false).trace
  {
    hide GenerateDogTransformation;
    var trace := GenerateDogTransformation(p, image, false).trace;
    RunSkeleton(p, image, false);
    assert Shape(trace) == QuietPlan[..|trace|];
    forall i | 0 <= i < |trace| ensures trace[i].Call? {
      assert KindOf(trace[i]) == QuietPlan[i];
    }
    CallsOfCalls(trace);
  }

  /** The remote calls of a successful run, with or without a callback,
      are those of the complete run written out above. */
  lemma SuccessfulRunCalls(p: Provider, image: Bytes, callback: bool)
    requires GenerateDogTransformation(p, image, callback).result.Ok?
    ensures CompleteRun(p, image, false).Some?
    ensures Calls(GenerateDogTransformation(p, image, callback).trace) == CompleteRun(p, image, false).value.trace
  {
    hide GenerateDogTransformation, Strip, Prompts.TransitionPrompt, Prompts.DogImagePrompt, DataUrl.JpegDataUrl;
    CallbackIrrelevant(p, image);
    QuietTraceIsCalls(p, image);
    AllOrNothing(p, image, false);
  }

  /** A successful run asks for a description twice, once for each
      transition, both times of the original image: its remote calls are
      the breed question, then describe and generate twice, then the final
      generation. */
  lemma SuccessfulCalls(p: Provider, image: Bytes, callback: bool)
    ensures GenerateDogTransformation(p, image, callback).result.Ok? ==>
              var run := GenerateDogTransformation(p, image, callback);
              var url := DataUrl.JpegDataUrl(image);
              var calls := Calls(run.trace);
              && |calls| == 6
              && calls[0] == Call(Identify, 0, url)
              && calls[1] == Call(Describe, 1, url) && calls[2].service == Generate
              && calls[3] == Call(Describe, 3, url) && calls[4].service == Generate
              && calls[5].service == Generate
  {
    hide GenerateDogTransformation, Strip, Prompts.TransitionPrompt, Prompts.DogImagePrompt, DataUrl.JpegDataUrl;
    if GenerateDogTransformation(p, image, callback).result.Ok? {
      SuccessfulRunCalls(p, image, callback);
    }
  }

  /** Every image the pipeline asks for names the breed. The first
      transition prompt takes the mostly human wording and the second the
      mostly dog wording, each based on the stripped reply of its own
      description call; the final prompt is the breed with the fixed stage
      text. */
  lemma SuccessfulPrompts(p: Provider, image: Bytes, callback: bool)
    ensures GenerateDogTransformation(p, image, callback).result.Ok? ==>
              var run := GenerateDogTransformation(p, image, callback);
              var url := DataUrl.JpegDataUrl(image);
              var breed := run.result.value.breed;
              var calls := Calls(run.trace);
              && |calls| == 6
              && (forall i :: 0 <= i < 6 && calls[i].service == Generate ==> Contains(calls[i].request, breed))
              && Contains(calls[2].request, Prompts.Opening(breed, Prompts.MostlyHuman))
              && Contains(calls[2].request, Prompts.BasedOn(Strip(p.describe(1, url).value)))
              && Contains(calls[4].request, Prompts.Opening(breed, Prompts.MostlyDog))
              && Contains(calls[4].request, Prompts.BasedOn(Strip(p.describe(3, url).value)))
              && calls[5].request == Prompts.DogImagePrompt(breed, Prompts.FinalStage)
  {
    hide GenerateDogTransformation, Strip, Prompts.TransitionPrompt, Prompts.DogImagePrompt, DataUrl.JpegDataUrl;
    if GenerateDogTransformation(p, image, callback).result.Ok? {
      var run := GenerateDogTransformation(p, image, callback);
      var url := DataUrl.JpegDataUrl(image);
      var breed := run.result.value.breed;
      SuccessfulRequests(p, image, callback);
      var d1, d3 := Strip(p.describe(1, url).value), Strip(p.describe(3, url).value);
      Prompts.StageLeanings();
      Prompts.TransitionPromptContains(breed, d1, Prompts.FirstTransitionLevel);
      Prompts.TransitionPromptContains(breed, d3, Prompts.SecondTransitionLevel);
      Prompts.DogImagePromptContains(breed, Prompts.FinalStage);
    }
  }

  /** The requests of the six remote calls of a successful run. */
  lemma SuccessfulRequests(p: Provider, image: Bytes, callback: bool)
    ensures GenerateDogTransformation(p, image, callback).result.Ok? ==>
              var run := GenerateDogTransformation(p, image, callback);
              var url := DataUrl.JpegDataUrl(image);
              var breed := run.result.value.breed;
              && p.describe(1, url).Ok? && p.describe(3, url).Ok?
              && Calls(run.trace) == [
                   Call(Identify, 0, url),
                   Call(Describe, 1, url),
                   Call(Generate, 2, Prompts.TransitionPrompt(breed, Strip(p.describe(1, url).value), Prompts.FirstTransitionLevel)),
                   Call(Describe, 3, url),
                   Call(Generate, 4, Prompts.TransitionPrompt(breed, Strip(p.describe(3, url).value), Prompts.SecondTransitionLevel)),
                   Call(Generate, 5, Prompts.DogImagePrompt(breed, Prompts.FinalStage))]
  {
    hide GenerateDogTransformation, Strip, Prompts.TransitionPrompt, Prompts.DogImagePrompt, DataUrl.JpegDataUrl;
    if GenerateDogTransformation(p, image, callback).result.Ok? {
      SuccessfulRunCalls(p, image, callback);
      AllOrNothing(p, image, callback);
    }
  }

  /** The final portrait depends on the original image only through the
      breed: two runs that identify the same breed send the same final
      request, and so, from the same provider, get the same final image. */
  lemma FinalPortraitIgnoresImage(p: Provider, a: Bytes, b: Bytes, callback: bool)
    ensures var ra, rb := GenerateDogTransformation(p, a, callback), GenerateDogTransformation(p, b, callback);
            ra.result.Ok? && rb.result.Ok? && ra.result.value.breed == rb.result.value.breed
            ==> |Calls(ra.trace)| == |Calls(rb.trace)| == 6 && Calls(ra.trace)[5] == Calls(rb.trace)[5]
                && ra.result.value.finalDog == rb.result.value.finalDog
  {
    hide GenerateDogTransformation, Strip, Prompts.TransitionPrompt, Prompts.DogImagePrompt, DataUrl.JpegDataUrl;
    SuccessfulRequests(p, a, callback);
    SuccessfulRequests(p, b, callback);
    SuccessfulResult(p, a, callback);
    SuccessfulResult(p, b, callback);
  }



  /** Every generation request of a trace names the breed. */
  ghost predicate NamesBreed(trace: seq<Event>, breed: string)
  {
    forall i :: 0 <= i < |trace| && trace[i].Call? && trace[i].service == Generate ==>
      Contains(trace[i].request, breed)
  }

  lemma NamesBreedAppend(a: seq<Event>, b: seq<Event>, breed: string)
    requires NamesBreed(a, breed) && NamesBreed(b, breed)
    ensures NamesBreed(a + b, breed)
  {
    forall i | 0 <= i < |a + b| && (a + b)[i].Call? && (a + b)[i].service == Generate
      ensures Contains((a + b)[i].request, breed)
    {
      if i >= |a| {
        assert (a + b)[i] == b[i - |a|];
      }
    }
  }

  lemma FinalImageNamesBreed(p: Provider, callback: bool, breed: string, t1: Bytes, t2: Bytes, trace: seq<Event>)
    requires NamesBreed(trace, breed)
    ensures NamesBreed(FinalImage(p, callback, breed, t1, t2, trace).trace, breed)
  {
    hide Strip, Prompts.TransitionPrompt, Prompts.DogImagePrompt, DataUrl.JpegDataUrl;
    var m60 := "Generating final " + breed + " image...";
    var t := trace + Report(callback, 60, m60);
    NamesBreedAppend(trace, Report(callback, 60, m60), breed);
    var portrait := GenerateDogImage(p, 5, breed, Prompts.FinalStage);
    DogImageRequest(p, 5, breed, Prompts.FinalStage);
    NamesBreedAppend(t, portrait.calls, breed);
    if portrait.result.Ok? {
      NamesBreedAppend(t + portrait.calls, Report(callback, 80, "Almost done..."), breed);
    }
  }

  /** The calls of a transition step name the breed in their generation
      request. */
  lemma TransitionNamesBreed(p: Provider, position: nat, image: Bytes, breed: string, level: real)
    ensures NamesBreed(GenerateTransitionImage(p, position, image, breed, level).calls, breed)
  {
    hide Strip, Prompts.TransitionPrompt, Prompts.DogImagePrompt, DataUrl.JpegDataUrl;
    TransitionRequest(p, position, image, breed, level);
  }

  lemma SecondTransitionNamesBreed(p: Provider, image: Bytes, callback: bool, breed: string, t1: Bytes, trace: seq<Event>)
    requires NamesBreed(trace, breed)
    ensures NamesBreed(SecondTransition(p, image, callback, breed, t1, trace).trace, breed)
  {
    hide Strip, Prompts.TransitionPrompt, Prompts.DogImagePrompt, DataUrl.JpegDataUrl, FinalImage;
    var m40 := "Generating second transition to " + breed + "...";
    var t := trace + Report(callback, 40, m40);
    NamesBreedAppend(trace, Report(callback, 40, m40), breed);
    var second := GenerateTransitionImage(p, 3, image, breed, Prompts.SecondTransitionLevel);
    TransitionNamesBreed(p, 3, image, breed, Prompts.SecondTransitionLevel);
    NamesBreedAppend(t, second.calls, breed);
    if second.result.Ok? {
      FinalImageNamesBreed(p, callback, breed, t1, second.result.value, t + second.calls);
    }
  }

  lemma FirstTransitionNamesBreed(p: Provider, image: Bytes, callback: bool, breed: string, trace: seq<Event>)
    requires NamesBreed(trace, breed)
    ensures NamesBreed(FirstTransition(p, image, callback, breed, trace).trace, breed)
  {
    hide Strip, Prompts.TransitionPrompt, Prompts.DogImagePrompt, DataUrl.JpegDataUrl, SecondTransition;
    var m20 := "Generating first transition to " + breed + "...";
    var t := trace + Report(callback, 20, m20);
    NamesBreedAppend(trace, Report(callback, 20, m20), breed);
    var first := GenerateTransitionImage(p, 1, image, breed, Prompts.FirstTransitionLevel);
    TransitionNamesBreed(p, 1, image, breed, Prompts.FirstTransitionLevel);
    NamesBreedAppend(t, first.calls, breed);
    if first.result.Ok? {
      SecondTransitionNamesBreed(p, image, callback, breed, first.result.value, t + first.calls);
    }
  }

  /** Every generation request of every run, complete or not, names the
      breed the run identified: the stripped reply of the breed question. */
  lemma EveryGenerationNamesBreed(p: Provider, image: Bytes, callback: bool)
    ensures var run := GenerateDogTransformation(p, image, callback);
            var reply := p.identify(0, DataUrl.JpegDataUrl(image));
            forall i | 0 <= i < |run.trace| && run.trace[i].Call? && run.trace[i].service == Generate ::
              reply.Ok? && Contains(run.trace[i].request, Strip(reply.value))
  {
    hide Strip, Prompts.TransitionPrompt, Prompts.DogImagePrompt, DataUrl.JpegDataUrl, FirstTransition;
    var m10 := "Identifying dog breed...";
    var identified := IdentifyDogBreed(p, 0, image);
    var t := Report(callback, 10, m10) + identified.calls;
    var reply := p.identify(0, DataUrl.JpegDataUrl(image));
    if reply.Ok? {
      var breed := Strip(reply.value);
      assert NamesBreed(t, breed);
      FirstTransitionNamesBreed(p, image, callback, breed, t);
    } else {
      var run := GenerateDogTransformation(p, image, callback);
      assert run.trace == t;
    }
  }
}
