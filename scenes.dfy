/**
 * The scene index each dashboard keeps: Next wraps to the first scene after
 * the last ("Restart"), and a step indicator jumps to its own scene.
 * There is no Previous button on the dashboards.
 */
module Scenes {

  /** The scene after `scene` in a dashboard of `count` scenes. */
  function NextScene(scene: nat, count: nat): (r: nat)
    requires scene < count
    ensures r < count
    ensures r == if scene == count - 1 then 0 else scene + 1
  {
    (scene + 1) % count
  }

  /** The scene reached after pressing Next `presses` times. */
  function Advance(scene: nat, count: nat, presses: nat): (r: nat)
    requires scene < count
    ensures r < count
  {
    if presses == 0 then scene else NextScene(Advance(scene, count, presses - 1), count)
  }

  /** Pressing Next `a` times and then `b` times is pressing it `a + b` times. */
  lemma {:induction false} AdvanceCompose(scene: nat, count: nat, a: nat, b: nat)
    requires scene < count
    ensures Advance(scene, count, a + b) == Advance(Advance(scene, count, a), count, b)
  {
    if b > 0 {
      AdvanceCompose(scene, count, a, b - 1);
    }
  }

  /** Before the wrap, each press moves exactly one scene forward. */
  lemma {:induction false} AdvanceNoWrap(scene: nat, count: nat, presses: nat)
    requires scene + presses < count
    ensures Advance(scene, count, presses) == scene + presses
  {
    if presses > 0 {
      AdvanceNoWrap(scene, count, presses - 1);
    }
  }

  /** Pressing Next once per scene returns to the starting scene. */
  lemma CycleReturns(scene: nat, count: nat)
    requires scene < count
    ensures Advance(scene, count, count) == scene
  {
    var toLast := count - 1 - scene;
    AdvanceNoWrap(scene, count, toLast);
    assert Advance(scene, count, toLast + 1) == 0;
    AdvanceNoWrap(0, count, scene);
    AdvanceCompose(scene, count, toLast + 1, scene);
  }

  /** Fewer presses than there are scenes never come back to the starting scene. */
  lemma NoEarlyReturn(scene: nat, count: nat, k: nat)
    requires scene < count && 0 < k < count
    ensures Advance(scene, count, k) != scene
  {
    var toLast := count - 1 - scene;
    if k <= toLast {
      AdvanceNoWrap(scene, count, k);
    } else {
      AdvanceNoWrap(scene, count, toLast);
      assert Advance(scene, count, toLast + 1) == 0;
      AdvanceCompose(scene, count, toLast + 1, k - toLast - 1);
      AdvanceNoWrap(0, count, k - toLast - 1);
    }
  }

  /** Pressing Next once per scene returns to the starting scene, and no fewer presses do. */
  lemma FullCycle(scene: nat, count: nat)
    requires scene < count
    ensures Advance(scene, count, count) == scene
    ensures forall k :: 0 < k < count ==> Advance(scene, count, k) != scene
  {
    CycleReturns(scene, count);
    forall k | 0 < k < count
      ensures Advance(scene, count, k) != scene
    {
      NoEarlyReturn(scene, count, k);
    }
  }

  /** The `scene` state of one dashboard. */
  class SceneCursor {
    const count: nat
    var scene: nat

    ghost predicate Valid()
      reads this
    {
      scene < count
    }

    /** A dashboard opens on its first scene. */
    constructor (count: nat)
      requires count > 0
      ensures Valid() && this.count == count && scene == 0
    {
      this.count := count;
      scene := 0;
    }

    /** The Next / Restart button. */
    method Next()
      requires Valid()
      modifies this
      ensures Valid() && scene == NextScene(old(scene), count)
    {
      scene := (scene + 1) % count;
    }

    /** A step indicator; one exists for each scene. */
    method Jump(index: nat)
      requires Valid() && index < count
      modifies this
      ensures Valid() && scene == index
    {
      scene := index;
    }
  }
}
