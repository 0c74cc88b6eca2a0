/** What a transformation run does, read off its trace: the progress it
    reports, the remote calls it makes and in which order, where it stops,
    how it reports failure and what it returns. */
module PipelineProperties {
  import opened Outcomes
  import opened Text
  import opened OpenAIService
  import DataUrl
  import Prompts

  /** An event without its texts: the percent of a progress report, or the
      service and position of a remote call. */
  datatype Kind = Reported(percent: int) | Called(service: Service, position: nat)

  function KindOf(e: Event): Kind
  {
    match e
    case Progress(percent, _) => Reported(percent)
    case Call(service, position, _) => Called(service, position)
  }

  /** The kinds of the events of a trace, in order. */
  function Shape(trace: seq<Event>): seq<Kind>
  {
    seq(|trace|, i requires 0 <= i < |trace| => KindOf(trace[i]))
  }

  /** The events of a complete run that reports progress: each checkpoint
      before the calls of its stage, and 80 once the last call is done. */
  const LoudPlan: seq<Kind> := [
    Reported(10), Called(Identify, 0),
    Reported(20), Called(Describe, 1), Called(Generate, 2),
    Reported(40), Called(Describe, 3), Called(Generate, 4),
    Reported(60), Called(Generate, 5),
    Reported(80)]

  /** The events of a complete run without a callback: the calls alone. */
  const QuietPlan: seq<Kind> := [
    Called(Identify, 0),
    Called(Describe, 1), Called(Generate, 2),
    Called(Describe, 3), Called(Generate, 4),
    Called(Generate, 5)]

  function Plan(callback: bool): seq<Kind>
  {
    if callback then LoudPlan else QuietPlan
  }

  /** The number of events after `reports` progress reports and `calls`
      remote calls. */
  function Progressed(callback: bool, reports: nat, calls: nat): nat
  {
    if callback then reports + calls else calls
  }

  predicate NoneFails(p: Provider, trace: seq<Event>)
  {
    forall i :: 0 <= i < |trace| ==> !Fails(p, trace[i])
  }

  /** The prefix a failure of the remote call at `position` is reported
      under: the identify prefix for the first call, the transition prefix
      for the two calls of each transition, the dog image prefix for the
      last. */
  function StagePrefix(position: nat): string
  {
    if position == 0 then IdentifyFailure
    else if position <= 4 then TransitionFailure
    else DogImageFailure
  }

  /** A run in progress that has followed its plan so far, without a
      failure. */
  ghost predicate OnPlan(p: Provider, callback: bool, trace: seq<Event>)
  {
    && |trace| < |Plan(callback)|
    && Shape(trace) == Plan(callback)[..|trace|]
    && NoneFails(p, trace)
  }

  /** What every run looks like. Its events are a non-empty prefix of the
      plan. Every event but the last succeeded. It succeeds exactly when it
      got to the end of the plan and the last event did not fail; otherwise
      the last event is the remote call that failed, and the run reports the
      text of that call's exception under the transformation prefix and the
      prefix of the stage the call belongs to. */
  ghost predicate Skeleton(p: Provider, callback: bool, run: Run)
  {
    var plan := Plan(callback);
    var n := |run.trace|;
    && 0 < n <= |plan|
    && Shape(run.trace) == plan[..n]
    && NoneFails(p, run.trace[..n - 1])
    && (run.result.Ok? <==> n == |plan| && !Fails(p, run.trace[n - 1]))
    && (run.result.Err? ==>
          && Fails(p, run.trace[n - 1])
          && run.result.message
             == TransformationFailure + StagePrefix(run.trace[n - 1].position) + FailureText(p, run.trace[n - 1]))
  }

  lemma ShapeAppend(a: seq<Event>, b: seq<Event>)
    ensures Shape(a + b) == Shape(a) + Shape(b)
  {
  }

  lemma PlanPrefix(callback: bool, n: nat)
    requires n < |Plan(callback)|
    ensures Plan(callback)[..n + 1] == Plan(callback)[..n] + [Plan(callback)[n]]
  {
  }

  /** The planned event, when it does not fail and is not the last one,
      keeps a run on plan. */
  lemma Extend(p: Provider, callback: bool, trace: seq<Event>, e: Event)
    requires OnPlan(p, callback, trace)
    requires |trace| + 1 < |Plan(callback)| && KindOf(e) == Plan(callback)[|trace|] && !Fails(p, e)
    ensures OnPlan(p, callback, trace + [e])
  {
    ShapeAppend(trace, [e]);
    PlanPrefix(callback, |trace|);
  }

  /** The planned progress report keeps a run on plan. */
  lemma ReportOnPlan(p: Provider, callback: bool, trace: seq<Event>, percent: int, message: string)
    requires OnPlan(p, callback, trace)
    requires callback ==> |trace| + 1 < |LoudPlan| && LoudPlan[|trace|] == Reported(percent)
    ensures OnPlan(p, callback, trace + Report(callback, percent, message))
    ensures |trace + Report(callback, percent, message)| == |trace| + Progressed(callback, 1, 0)
  {
    if callback {
      Extend(p, callback, trace, Progress(percent, message));
    } else {
      assert trace + Report(callback, percent, message) == trace;
    }
  }

  /** The planned remote call fails: the run stops with it. */
  lemma Stop(p: Provider, callback: bool, trace: seq<Event>, c: Event, message: string)
    requires OnPlan(p, callback, trace)
    requires KindOf(c) == Plan(callback)[|trace|] && Fails(p, c)
    requires message == TransformationFailure + StagePrefix(c.position) + FailureText(p, c)
    ensures Skeleton(p, callback, Run(Err(message), trace + [c]))
  {
    ShapeAppend(trace, [c]);
    PlanPrefix(callback, |trace|);
    assert (trace + [c])[..|trace|] == trace;
  }

  /** The last planned event, when it does not fail, completes the run. */
  lemma Complete(p: Provider, callback: bool, trace: seq<Event>, e: Event, t: Transformation)
    requires OnPlan(p, callback, trace)
    requires |trace| + 1 == |Plan(callback)| && KindOf(e) == Plan(callback)[|trace|] && !Fails(p, e)
    ensures Skeleton(p, callback, Run(Ok(t), trace + [e]))
  {
    ShapeAppend(trace, [e]);
    PlanPrefix(callback, |trace|);
    assert (trace + [e])[..|trace|] == trace;
  }

  /** The final image step: generation at position 5, then the report of
      80 percent. */
  lemma FinalImageSkeleton(p: Provider, callback: bool, breed: string, t1: Bytes, t2: Bytes, trace: seq<Event>)
    requires OnPlan(p, callback, trace) && |trace| == Progressed(callback, 3, 5)
    ensures Skeleton(p, callback, FinalImage(p, callback, breed, t1, t2, trace))
  {
    hide Prompts.TransitionPrompt, Prompts.DogImagePrompt, Text.Strip, DataUrl.JpegDataUrl;
    var message := "Generating final " + breed + " image...";
    var t := trace + Report(callback, 60, message);
    ReportOnPlan(p, callback, trace, 60, message);
    var portrait := GenerateDogImage(p, 5, breed, Prompts.FinalStage);
    var c := portrait.calls[0];
    assert portrait.calls == [c];
    if portrait.result.Err? {
      Stop(p, callback, t, c, TransformationFailure + portrait.result.message);
      assert FinalImage(p, callback, breed, t1, t2, trace) == Abort(t, portrait);
    } else {
      var result := Transformation(breed, t1, t2, portrait.result.value);
      if callback {
        Extend(p, callback, t, c);
        Complete(p, callback, t + [c], Progress(80, "Almost done..."), result);
      } else {
        Complete(p, callback, t, c, result);
        assert t + [c] + Report(callback, 80, "Almost done...") == t + [c];
      }
    }
  }

  /** What the pipeline needs to know of a transition step whose
      description call is at `position`: one or two calls, the description
      call and, unless it failed, the generation call after it; the step
      succeeds exactly when both calls do, and a failure carries the text of
      the failed call under the transition prefix. */
  ghost predicate TransitionShaped(p: Provider, position: nat, s: Step<Bytes>)
  {
    && 1 <= |s.calls| <= 2
    && KindOf(s.calls[0]) == Called(Describe, position)
    && (|s.calls| == 2 <==> !Fails(p, s.calls[0]))
    && (|s.calls| == 2 ==> KindOf(s.calls[1]) == Called(Generate, position + 1))
    && (s.result.Ok? <==> |s.calls| == 2 && !Fails(p, s.calls[1]))
    && (s.result.Err? ==> s.result.message == TransitionFailure + FailureText(p, s.calls[|s.calls| - 1]))
  }

  lemma TransitionIsShaped(p: Provider, position: nat, image: Bytes, breed: string, level: real)
    ensures TransitionShaped(p, position, GenerateTransitionImage(p, position, image, breed, level))
  {
    hide Prompts.TransitionPrompt, Prompts.DogImagePrompt, Text.Strip, DataUrl.JpegDataUrl;
  }

  /** The precondition shared by the three outcomes of a transition step:
      the run is on plan and the plan's next two events are the step's two
      calls. */
  ghost predicate BeforeTransition(p: Provider, callback: bool, trace: seq<Event>, position: nat)
  {
    && OnPlan(p, callback, trace) && |trace| + 2 < |Plan(callback)|
    && Plan(callback)[|trace|] == Called(Describe, position)
    && Plan(callback)[|trace| + 1] == Called(Generate, position + 1)
    && StagePrefix(position) == TransitionFailure && StagePrefix(position + 1) == TransitionFailure
  }

  lemma DescriptionFails(p: Provider, callback: bool, trace: seq<Event>, position: nat, s: Step<Bytes>)
    requires BeforeTransition(p, callback, trace, position) && TransitionShaped(p, position, s)
    requires |s.calls| == 1
    ensures Skeleton(p, callback, Abort(trace, s))
  {
    var c0 := s.calls[0];
    assert s.calls == [c0];
    Stop(p, callback, trace, c0, TransformationFailure + s.result.message);
  }

  lemma TransitionGenerationFails(p: Provider, callback: bool, trace: seq<Event>, position: nat, s: Step<Bytes>)
    requires BeforeTransition(p, callback, trace, position) && TransitionShaped(p, position, s)
    requires |s.calls| == 2 && s.result.Err?
    ensures Skeleton(p, callback, Abort(trace, s))
  {
    var c0, c1 := s.calls[0], s.calls[1];
    assert trace + s.calls == trace + [c0] + [c1];
    Extend(p, callback, trace, c0);
    Stop(p, callback, trace + [c0], c1, TransformationFailure + s.result.message);
  }

  lemma TransitionSucceeds(p: Provider, callback: bool, trace: seq<Event>, position: nat, s: Step<Bytes>)
    requires BeforeTransition(p, callback, trace, position) && TransitionShaped(p, position, s)
    requires s.result.Ok?
    ensures OnPlan(p, callback, trace + s.calls)
  {
    var c0, c1 := s.calls[0], s.calls[1];
    assert trace + s.calls == trace + [c0] + [c1];
    Extend(p, callback, trace, c0);
    Extend(p, callback, trace + [c0], c1);
  }

  /** A transition step either stops the run or leaves it on plan two calls
      further. */
  lemma TransitionOnPlan(p: Provider, callback: bool, trace: seq<Event>, position: nat, s: Step<Bytes>)
    requires BeforeTransition(p, callback, trace, position) && TransitionShaped(p, position, s)
    ensures s.result.Err? ==> Skeleton(p, callback, Abort(trace, s))
    ensures s.result.Ok? ==> OnPlan(p, callback, trace + s.calls)
  {
    if |s.calls| == 1 {
      DescriptionFails(p, callback, trace, position, s);
    } else if s.result.Err? {
      TransitionGenerationFails(p, callback, trace, position, s);
    } else {
      TransitionSucceeds(p, callback, trace, position, s);
    }
  }

  lemma SecondTransitionSkeleton(p: Provider, image: Bytes, callback: bool, breed: string, t1: Bytes, trace: seq<Event>)
    requires OnPlan(p, callback, trace) && |trace| == Progressed(callback, 2, 3)
    ensures Skeleton(p, callback, SecondTransition(p, image, callback, breed, t1, trace))
  {
    hide Prompts.TransitionPrompt, Prompts.DogImagePrompt, Text.Strip, DataUrl.JpegDataUrl;
    var message := "Generating second transition to " + breed + "...";
    var t := trace + Report(callback, 40, message);
    var second := GenerateTransitionImage(p, 3, image, breed, Prompts.SecondTransitionLevel);
    ReportOnPlan(p, callback, trace, 40, message);
    TransitionIsShaped(p, 3, image, breed, Prompts.SecondTransitionLevel);
    TransitionOnPlan(p, callback, t, 3, second);
    if second.result.Ok? {
      FinalImageSkeleton(p, callback, breed, t1, second.result.value, t + second.calls);
    }
  }

  /** The first transition step, at positions 1 and 2 after the report of
      20 percent, either stops the run or leaves it on plan before the
      second transition. */
  lemma FirstTransitionStep(p: Provider, image: Bytes, callback: bool, breed: string, trace: seq<Event>)
    requires OnPlan(p, callback, trace) && |trace| == Progressed(callback, 1, 1)
    ensures var t := trace + Report(callback, 20, "Generating first transition to " + breed + "...");
            var first := GenerateTransitionImage(p, 1, image, breed, Prompts.FirstTransitionLevel);
            && (first.result.Err? ==> Skeleton(p, callback, Abort(t, first)))
            && (first.result.Ok? ==>
                  OnPlan(p, callback, t + first.calls) && |t + first.calls| == Progressed(callback, 2, 3))
  {
    hide Prompts.TransitionPrompt, Prompts.DogImagePrompt, Text.Strip, DataUrl.JpegDataUrl;
    var message := "Generating first transition to " + breed + "...";
    var t := trace + Report(callback, 20, message);
    var first := GenerateTransitionImage(p, 1, image, breed, Prompts.FirstTransitionLevel);
    ReportOnPlan(p, callback, trace, 20, message);
    TransitionIsShaped(p, 1, image, breed, Prompts.FirstTransitionLevel);
    TransitionOnPlan(p, callback, t, 1, first);
  }

  lemma FirstTransitionSkeleton(p: Provider, image: Bytes, callback: bool, breed: string, trace: seq<Event>)
    requires OnPlan(p, callback, trace) && |trace| == Progressed(callback, 1, 1)
    ensures Skeleton(p, callback, FirstTransition(p, image, callback, breed, trace))
  {
    hide Prompts.TransitionPrompt, Prompts.DogImagePrompt, Text.Strip, DataUrl.JpegDataUrl;
    var t := trace + Report(callback, 20, "Generating first transition to " + breed + "...");
    var first := GenerateTransitionImage(p, 1, image, breed, Prompts.FirstTransitionLevel);
    FirstTransitionStep(p, image, callback, breed, trace);
    if first.result.Ok? {
      SecondTransitionSkeleton(p, image, callback, breed, first.result.value, t + first.calls);
    }
  }

  /** Every run has the skeleton described above. */
  lemma RunSkeleton(p: Provider, image: Bytes, callback: bool)
    ensures Skeleton(p, callback, GenerateDogTransformation(p, image, callback))
  {
    hide Prompts.TransitionPrompt, Prompts.DogImagePrompt, Text.Strip, DataUrl.JpegDataUrl;
    var message := "Identifying dog breed...";
    var t := Report(callback, 10, message);
    assert OnPlan(p, callback, []);
    ReportOnPlan(p, callback, [], 10, message);
    assert [] + t == t;
    var identified := IdentifyDogBreed(p, 0, image);
    var c := identified.calls[0];
    if identified.result.Err? {
      Stop(p, callback, t, c, TransformationFailure + identified.result.message);
    } else {
      Extend(p, callback, t, c);
      FirstTransitionSkeleton(p, image, callback, identified.result.value, t + identified.calls);
    }
  }
}
