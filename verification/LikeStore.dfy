/** Redis and MySQL as the like workers share them: a state of module Likes with the run that led to it. */
module LikeStore {
  import opened Basics
  import opened Likes

  class Store {
    const aggregators: nat
    var st: State
    ghost var run: seq<Step>

    constructor (aggregators: nat)
      ensures Valid() && this.aggregators == aggregators
    {
      this.aggregators, st, run := aggregators, Init(aggregators), [];
    }

    ghost predicate Valid()
      reads this
    {
      Run(aggregators, run) == Some(st)
    }

    ghost predicate Holds(a: nat, held: Option<Held>)
      reads this
    {
      Valid() && a < |st.slots| && st.slots[a] == held
    }

    method Do(step: Step)
      requires Valid() && Enabled(st, step)
      modifies this
      ensures Valid() && run == old(run) + [step] && st == Apply(old(st), step)
    {
      assert (run + [step])[..|run|] == run;
      st, run := Apply(st, step), run + [step];
    }

    /** Whatever likes and other aggregators do before a's next call. */
    method Others(a: nat, ghost held: Option<Held>)
      requires Holds(a, held)
      modifies this
      ensures Holds(a, held) && old(run) <= run
    {
    }

    /** Whatever others do, except for the statements numbered `from` to `to`, which are still the caller's. */
    method Wait(ghost from: nat, ghost to: nat)
      requires Valid() && from <= to <= |st.jobs|
      modifies this
      ensures Valid() && old(run) <= run && to <= |st.jobs|
      ensures forall i :: from <= i < to ==> st.jobs[i] == old(st.jobs[i])
    {
    }
  }
}
