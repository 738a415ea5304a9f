/**
 * The "specialist team" animation: a five-step carousel with auto-play,
 * the car layers that fade in as the steps advance, and the progress label.
 */
module SpecialistTeamAnimation {
  import opened Numeric
  import Scenes

  /** The carousel has five steps. */
  const StepCount: nat := 5

  /** The step before `step`, wrapping from the first to the last. */
  function PrevStep(step: nat): (r: nat)
    requires step < StepCount
    ensures r < StepCount
    ensures r == if step == 0 then StepCount - 1 else step - 1
  {
    (step - 1 + StepCount) % StepCount
  }

  /** Next and Prev undo each other. */
  lemma NextPrevInverse(step: nat)
    requires step < StepCount
    ensures PrevStep(Scenes.NextScene(step, StepCount)) == step
    ensures Scenes.NextScene(PrevStep(step), StepCount) == step
  {
  }

  /** The carousel's state: the current step and whether the timer advances it. */
  class TeamAnimation {
    var step: nat
    var autoPlay: bool

    ghost predicate Valid()
      reads this
    {
      step < StepCount
    }

    /** The animation starts at the first step, playing. */
    constructor ()
      ensures Valid() && step == 0 && autoPlay
    {
      step := 0;
      autoPlay := true;
    }

    /** `handleNext`: one step forward, wrapping, and auto-play stops. */
    method Next()
      requires Valid()
      modifies this
      ensures Valid() && step == Scenes.NextScene(old(step), StepCount) && !autoPlay
    {
      step := (step + 1) % StepCount;
      autoPlay := false;
    }

    /** `handlePrev`: one step back, wrapping, and auto-play stops. */
    method Prev()
      requires Valid()
      modifies this
      ensures Valid() && step == PrevStep(old(step)) && !autoPlay
    {
      step := (step - 1 + StepCount) % StepCount;
      autoPlay := false;
    }

    /** A step indicator: go to that step, and auto-play stops. */
    method Jump(index: nat)
      requires Valid() && index < StepCount
      modifies this
      ensures Valid() && step == index && !autoPlay
    {
      step := index;
      autoPlay := false;
    }

    /** Play / Pause flips auto-play and keeps the step. */
    method TogglePlay()
      requires Valid()
      modifies this
      ensures Valid() && step == old(step) && autoPlay == !old(autoPlay)
    {
      autoPlay := !autoPlay;
    }

    /** The 4.5 s timer: advances one step only while auto-play is on. */
    method Tick()
      requires Valid()
      modifies this
      ensures Valid() && autoPlay == old(autoPlay)
      ensures step == if old(autoPlay) then Scenes.NextScene(old(step), StepCount) else old(step)
    {
      if autoPlay {
        step := (step + 1) % StepCount;
      }
    }
  }

  /** Opacity of each layer of the car drawing. */
  datatype Layers = Layers(chassis: real, wheels: real, body: real, details: real, glow: real)

  /** The layers at a step: each part becomes opaque from its own step on. */
  function Opacity(step: nat): (o: Layers)
    ensures o.chassis == 1.0
  {
    var completionPhase := step;
    Layers(if completionPhase >= 0 then 1.0 else 0.3,
           if completionPhase >= 1 then 1.0 else 0.2,
           if completionPhase >= 2 then 1.0 else 0.2,
           if completionPhase >= 3 then 1.0 else 0.2,
           if completionPhase >= 4 then 1.0 else 0.0)
  }

  /**
   * No layer fades as the animation moves forward: wheels, body and details
   * are drawn at full opacity from steps 1, 2 and 3 on (0.2 before), and the
   * glow appears (from 0) only at the last step.
   */
  lemma OpacityMonotone(s: nat, t: nat)
    requires s <= t < StepCount
    ensures Opacity(s).wheels <= Opacity(t).wheels && Opacity(s).body <= Opacity(t).body
    ensures Opacity(s).details <= Opacity(t).details && Opacity(s).glow <= Opacity(t).glow
    ensures (Opacity(t).wheels == 1.0 <==> t >= 1) && (Opacity(t).body == 1.0 <==> t >= 2)
    ensures (Opacity(t).details == 1.0 <==> t >= 3) && (Opacity(t).glow == 1.0 <==> t == StepCount - 1)
    ensures Opacity(0) == Layers(1.0, 0.2, 0.2, 0.2, 0.0)
  {
  }

  /** The "Overall Progress" percentage of a step. */
  function ProgressPercent(step: nat): (percent: int)
    ensures step < StepCount ==> 0 < percent <= 100
    ensures step == StepCount - 1 ==> percent == 100
  {
    var share := ((step + 1) as real / StepCount as real) * 100.0;
    if step < StepCount then
      assert 20.0 <= share <= 100.0;
      RoundMonotone(20.0, share);
      RoundMonotone(share, 100.0);
      RoundExact(20);
      RoundExact(100);
      Round(share)
    else
      Round(share)
  }

  /** The progress label reads 20, 40, 60, 80 and 100 percent. */
  lemma ProgressValues(step: nat)
    requires step < StepCount
    ensures ProgressPercent(step) == 20 * (step + 1)
  {
    assert ((step + 1) as real / StepCount as real) * 100.0 == (20 * (step + 1)) as real;
    RoundExact(20 * (step + 1));
  }
}
