/** The phase sequencer of the hero component: the layout phase starts at
    `Scatter`, and two timers registered at mount set it to `Line` and then
    to `Circle`. Timers fire in registration order (the 500 ms timer before
    the 2500 ms one), so the class keeps the timers still pending as a queue;
    the delays themselves are not modelled. */
module PhaseSequencer {

  /** `AnimationPhase`. `BottomStrip` is declared by the component but never
      produced by it. */
  datatype AnimationPhase = Scatter | Line | Circle | BottomStrip

  /** Position of a phase in the intro order. */
  function Rank(p: AnimationPhase): nat
  {
    match p
    case Scatter => 0
    case Line => 1
    case Circle => 2
    case BottomStrip => 3
  }

  /** The phases the two timers set, in the order they fire. */
  const Schedule: seq<AnimationPhase> := [Line, Circle]

  /** The phase once the first `fired` timers have fired: the intro only
      moves forward, one rank per timer, and stops at `Circle`. */
  function PhaseAfter(fired: nat): (p: AnimationPhase)
    requires fired <= |Schedule|
    ensures Rank(p) == fired
    ensures p != BottomStrip
  {
    if fired == 0 then Scatter else Schedule[fired - 1]
  }

  /** The phase state of one mounted hero: `introPhase` and the timers that
      have not fired yet. The ghost field `Fired` counts the timers that
      have fired. */
  class Sequencer {
    var phase: AnimationPhase
    var pending: seq<AnimationPhase>
    ghost var Fired: nat

    /** The phase is the one the fired timers set; the pending timers are
        the rest of the schedule, or none once they have been cleared. */
    ghost predicate Valid()
      reads this
    {
      Fired <= |Schedule| &&
      phase == PhaseAfter(Fired) &&
      (pending == Schedule[Fired..] || pending == [])
    }

    /** Mount: the phase is `Scatter` and both timers are pending. */
    constructor Mount()
      ensures Valid()
      ensures phase == Scatter && pending == Schedule && Fired == 0
    {
      phase := Scatter;
      pending := [Line, Circle];
      Fired := 0;
    }

    /** The earliest pending timer fires and sets the phase it carries;
        with no timer pending nothing happens. The phase never reverts, is
        never `BottomStrip`, and moves at most one step. */
    method Fire()
      requires Valid()
      modifies this
      ensures Valid()
      ensures old(pending) == [] ==> phase == old(phase) && pending == [] && Fired == old(Fired)
      ensures old(pending) != [] ==>
                phase == old(pending[0]) && pending == old(pending[1..]) && Fired == old(Fired) + 1
      ensures Rank(old(phase)) <= Rank(phase) <= Rank(old(phase)) + 1
      ensures phase != BottomStrip
    {
      if pending != [] {
        phase := pending[0];
        pending := pending[1..];
        Fired := Fired + 1;
      }
    }

    /** Unmount clears both timers: whatever has not fired never will. */
    method Unmount()
      requires Valid()
      modifies this`pending
      ensures Valid()
      ensures pending == [] && phase == old(phase)
    {
      pending := [];
    }
  }
}
