/**
  One finger slot of the touchpad: its last reported contact and the
  displacement since the previous report.
 */
module Fingers {

  /** Everything a Finger holds except its id. */
  datatype FingerState = FingerState(
    isTouching: bool, x: int, y: int, force: int, area: int,
    relativeX: int, relativeY: int)

  /** The arguments of one call of update. */
  datatype Sample = Sample(isTouching: bool, x: int, y: int, force: int, area: int)

  /** The defaults of a new Finger: not touching, everything 0. */
  const Initial: FingerState := FingerState(false, 0, 0, 0, 0, 0, 0)

  /**
    The state after update with sample `m`: the displacement is measured from
    the previous position only when the finger was touching before and is
    touching now; otherwise it is reset to 0. The sample then replaces the
    stored contact.
   */
  function Step(s: FingerState, m: Sample): FingerState
  {
    var continued := s.isTouching && m.isTouching;
    FingerState(m.isTouching, m.x, m.y, m.force, m.area,
                if continued then m.x - s.x else 0,
                if continued then m.y - s.y else 0)
  }

  /** The state after a sequence of updates. */
  function Run(s: FingerState, ms: seq<Sample>): FingerState
    decreases |ms|
  {
    if ms == [] then s else Run(Step(s, ms[0]), ms[1..])
  }

  /** The sum of the displacements reported over a sequence of updates, per axis. */
  function SumRelativeX(s: FingerState, ms: seq<Sample>): int
    decreases |ms|
  {
    if ms == [] then 0 else Step(s, ms[0]).relativeX + SumRelativeX(Step(s, ms[0]), ms[1..])
  }

  function SumRelativeY(s: FingerState, ms: seq<Sample>): int
    decreases |ms|
  {
    if ms == [] then 0 else Step(s, ms[0]).relativeY + SumRelativeY(Step(s, ms[0]), ms[1..])
  }

  ghost predicate AllTouching(ms: seq<Sample>)
  {
    forall i | 0 <= i < |ms| :: ms[i].isTouching
  }

  /** The displacement is the position delta exactly when contact continues, and 0 otherwise. */
  lemma StepRelative(s: FingerState, m: Sample)
    ensures s.isTouching && m.isTouching ==>
              Step(s, m).relativeX == m.x - s.x && Step(s, m).relativeY == m.y - s.y
    ensures !(s.isTouching && m.isTouching) ==> Step(s, m).relativeX == 0 && Step(s, m).relativeY == 0
  {
  }

  /** After update the contact fields are the arguments. */
  lemma StepStores(s: FingerState, m: Sample)
    ensures var r := Step(s, m);
      r.isTouching == m.isTouching && r.x == m.x && r.y == m.y && r.force == m.force && r.area == m.area
  {
  }

  /** The first update after construction never reports a displacement. */
  lemma FirstUpdateHasNoDisplacement(m: Sample)
    ensures Step(Initial, m).relativeX == 0 && Step(Initial, m).relativeY == 0
  {
  }

  /** Only the previous position and touch flag matter; the previous force, area and displacement do not. */
  lemma StepDependsOnPositionAndTouch(s1: FingerState, s2: FingerState, m: Sample)
    requires s1.isTouching == s2.isTouching && s1.x == s2.x && s1.y == s2.y
    ensures Step(s1, m) == Step(s2, m)
  {
  }

  /**
    While contact is unbroken, the displacements reported add up to the
    distance moved: the sum of relativeX is the final x minus the x at the start.
   */
  lemma {:induction false} DisplacementsTelescope(s: FingerState, ms: seq<Sample>)
    requires s.isTouching && AllTouching(ms)
    ensures SumRelativeX(s, ms) == Run(s, ms).x - s.x
    ensures SumRelativeY(s, ms) == Run(s, ms).y - s.y
    decreases |ms|
  {
    if ms != [] {
      var s' := Step(s, ms[0]);
      assert AllTouching(ms[1..]) by {
        forall i | 0 <= i < |ms[1..]| ensures ms[1..][i].isTouching {
          assert ms[1..][i] == ms[i + 1];
        }
      }
      DisplacementsTelescope(s', ms[1..]);
    }
  }

  /** Finger: the mutable slot, with the fields of Finger.h. */
  class Finger {
    const id: int
    var isTouching: bool
    var x: int
    var y: int
    var force: int
    var area: int
    var relativeX: int
    var relativeY: int

    function State(): FingerState
      reads this
    {
      FingerState(isTouching, x, y, force, area, relativeX, relativeY)
    }

    constructor (id: int)
      ensures this.id == id
      ensures State() == Initial
    {
      this.id := id;
      isTouching, x, y, force, area := false, 0, 0, 0, 0;
      relativeX, relativeY := 0, 0;
    }

    /** update: computes the displacement from the old position, then stores the new contact. */
    method Update(isTouching: bool, x: int, y: int, force: int, area: int)
      modifies this
      ensures State() == Step(old(State()), Sample(isTouching, x, y, force, area))
    {
      if this.isTouching && isTouching {
        relativeX := x - this.x;
        relativeY := y - this.y;
      } else {
        relativeX := 0;
        relativeY := 0;
      }
      this.isTouching := isTouching;
      this.x := x;
      this.y := y;
      this.force := force;
      this.area := area;
    }
  }

  /**
    A new finger touched at (100, 100) and then at (130, 90) first reports no
    displacement, then (30, -10).
   */
  method TwoTouchesExample(force: int, area: int) returns (first: (int, int), second: (int, int))
    ensures first == (0, 0) && second == (30, -10)
  {
    var f := new Finger(0);
    f.Update(true, 100, 100, force, area);
    first := (f.relativeX, f.relativeY);
    f.Update(true, 130, 90, force, area);
    second := (f.relativeX, f.relativeY);
  }
}
