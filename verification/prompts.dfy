/** The text prompts sent to the image generator: plain templates over the
    breed name, a stage description and, for transition images, the vision
    model's description of the person. */
module Prompts {
  import opened Text

  /** The two wordings of a transition image. */
  datatype Leaning = MostlyHuman | MostlyDog

  /** The transformation levels of the two transition images. */
  const FirstTransitionLevel: real := 0.33
  const SecondTransitionLevel: real := 0.66

  /** The stage text of the final dog image. */
  const FinalStage: string := "facing forward, friendly expression, full portrait"

  /** Below one half the picture leans human, from one half on it leans dog. */
  function LeaningOf(level: real): (l: Leaning)
    ensures l == MostlyHuman <==> level < 0.5
  {
    if level < 0.5 then MostlyHuman else MostlyDog
  }

  /** The first transition takes the human wording, the second the dog
      wording, and one half itself already leans dog. */
  lemma StageLeanings()
    ensures LeaningOf(FirstTransitionLevel) == MostlyHuman
    ensures LeaningOf(SecondTransitionLevel) == MostlyDog
    ensures LeaningOf(0.5) == MostlyDog
  {
  }

  /** The fixed pieces of the templates. */
  const PortraitOfA: string := "A photorealistic portrait of a "
  const DogComma: string := " dog, "
  const StudioClosing: string :=
    ". Studio lighting, high detail, professional photography, centered composition, neutral background."
  const PortraitShowing: string := "A photorealistic portrait showing "
  const SeamlessClosing: string :=
    ". Studio lighting, high detail, professional photography, centered composition, neutral background. "
    + "The transformation should look natural and seamless."
  const MostlyHumanWords: string := "a portrait that is mostly human but with subtle "
  const HumanFeatures: string :=
    " dog features beginning to emerge. The face is primarily human-like with hints of dog characteristics. "
  const MostlyWords: string := "a portrait that is mostly "
  const DogFeatures: string :=
    " dog but retains some human characteristics. The face is primarily dog-like but maintains hints of the original human features. "
  const BasedOnWords: string := "Based on: "

  /** The words of a transition description around the breed, by leaning. */
  function Opening(breed: string, leaning: Leaning): string
  {
    match leaning
    case MostlyHuman => MostlyHumanWords + breed + HumanFeatures
    case MostlyDog => MostlyWords + breed + DogFeatures
  }

  /** The closing part of a transition description that carries the vision
      model's description of the person. */
  function BasedOn(description: string): string
  {
    BasedOnWords + description
  }

  /** The transformation description of a transition image: the wording of
      the level's leaning around the breed, then the person's description. */
  function TransitionDescription(breed: string, description: string, level: real): string
  {
    if level < 0.5 then MostlyHumanWords + breed + HumanFeatures + BasedOn(description)
    else MostlyWords + breed + DogFeatures + BasedOn(description)
  }

  /** A transition description opens with the wording of its level's
      leaning and closes with the person's description. */
  lemma DescriptionShape(breed: string, description: string, level: real)
    ensures StartsWith(TransitionDescription(breed, description, level), Opening(breed, LeaningOf(level)))
    ensures IsSuffix(BasedOn(description), TransitionDescription(breed, description, level))
  {
    var opening := Opening(breed, LeaningOf(level));
    var d := TransitionDescription(breed, description, level);
    assert d == opening + BasedOn(description);
    assert d[..|opening|] == opening;
  }

  /** The wording depends on the level only through its side of one half:
      two levels give the same description exactly when they lean the same
      way. */
  lemma DescriptionDependsOnLeaningOnly(breed: string, description: string, l1: real, l2: real)
    ensures TransitionDescription(breed, description, l1) == TransitionDescription(breed, description, l2)
            <==> LeaningOf(l1) == LeaningOf(l2)
  {
    // The fixed parts of the two wordings differ in length.
    assert |MostlyHumanWords| + |HumanFeatures| == 151;
    assert |MostlyWords| + |DogFeatures| == 154;
  }

  /** The prompt of `generate_dog_image`. */
  function DogImagePrompt(breed: string, stage: string): string
  {
    PortraitOfA + breed + DogComma + stage + StudioClosing
  }

  /** The prompt of the dog image names the breed and the stage. */
  lemma DogImagePromptContains(breed: string, stage: string)
    ensures Contains(DogImagePrompt(breed, stage), breed)
    ensures Contains(DogImagePrompt(breed, stage), stage)
  {
    assert DogImagePrompt(breed, stage) == PortraitOfA + breed + (DogComma + stage + StudioClosing);
    ContainsMiddle(PortraitOfA, breed, DogComma + stage + StudioClosing);
    assert DogImagePrompt(breed, stage) == (PortraitOfA + breed + DogComma) + stage + StudioClosing;
    ContainsMiddle(PortraitOfA + breed + DogComma, stage, StudioClosing);
  }

  /** For a fixed stage the prompt names one breed only: equal prompts mean
      equal breeds. */
  lemma DogImagePromptDeterminesBreed(b1: string, b2: string, stage: string)
    ensures DogImagePrompt(b1, stage) == DogImagePrompt(b2, stage) <==> b1 == b2
  {
    if DogImagePrompt(b1, stage) == DogImagePrompt(b2, stage) {
      var n := |PortraitOfA|;
      assert |b1| == |b2|;
      assert b1 == DogImagePrompt(b1, stage)[n..n + |b1|];
      assert b2 == DogImagePrompt(b2, stage)[n..n + |b2|];
    }
  }

  /** A transition description names the breed and carries the person's
      description, whichever way it leans. */
  lemma DescriptionContains(breed: string, description: string, level: real)
    ensures Contains(TransitionDescription(breed, description, level), breed)
    ensures Contains(TransitionDescription(breed, description, level), BasedOn(description))
  {
    var b := BasedOn(description);
    if level < 0.5 {
      ContainsMiddle(MostlyHumanWords, breed, HumanFeatures);
      ContainsLeft(MostlyHumanWords + breed + HumanFeatures, b, breed);
      ContainsEnd(MostlyHumanWords + breed + HumanFeatures, b);
    } else {
      ContainsMiddle(MostlyWords, breed, DogFeatures);
      ContainsLeft(MostlyWords + breed + DogFeatures, b, breed);
      ContainsEnd(MostlyWords + breed + DogFeatures, b);
    }
  }

  /** The prompt of `generate_transition_image`. */
  function TransitionPrompt(breed: string, description: string, level: real): string
  {
    PortraitShowing + TransitionDescription(breed, description, level) + SeamlessClosing
  }

  /** The prompt of a transition image names the breed, carries the wording
      of the level's leaning and the person's description. */
  lemma TransitionPromptContains(breed: string, description: string, level: real)
    ensures Contains(TransitionPrompt(breed, description, level), breed)
    ensures Contains(TransitionPrompt(breed, description, level), Opening(breed, LeaningOf(level)))
    ensures Contains(TransitionPrompt(breed, description, level), BasedOn(description))
  {
    var d := TransitionDescription(breed, description, level);
    var opening := Opening(breed, LeaningOf(level));
    DescriptionShape(breed, description, level);
    ContainsStart(d, opening);
    ContainsRight(PortraitShowing, d, opening);
    ContainsLeft(PortraitShowing + d, SeamlessClosing, opening);
    DescriptionContains(breed, description, level);
    ContainsRight(PortraitShowing, d, breed);
    ContainsRight(PortraitShowing, d, BasedOn(description));
    ContainsLeft(PortraitShowing + d, SeamlessClosing, breed);
    ContainsLeft(PortraitShowing + d, SeamlessClosing, BasedOn(description));
  }
}
