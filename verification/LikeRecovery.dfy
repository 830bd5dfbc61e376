/** What checkpoints bring back after Redis has lost totals. */
module LikeRecovery {
  import opened Basics
  import opened Likes
  import opened LikeTotals

  lemma {:induction false} PrefixRuns(n: nat, run: seq<Step>, i: nat)
    requires Run(n, run).Some? && i <= |run|
    ensures Run(n, run[..i]).Some?
  {
    if i < |run| {
      PrefixRuns(n, run[..|run| - 1], i);
      assert run[..|run| - 1][..i] == run[..i];
    } else {
      assert run[..i] == run;
    }
  }

  /** The state after the first `i` steps. */
  ghost function At(n: nat, run: seq<Step>, i: nat): (s: State)
    requires Run(n, run).Some? && i <= |run|
    ensures Run(n, run[..i]) == Some(s)
  {
    PrefixRuns(n, run, i);
    Run(n, run[..i]).value
  }

  lemma StepAt(n: nat, run: seq<Step>, i: nat)
    requires Run(n, run).Some? && i < |run|
    ensures Enabled(At(n, run, i), run[i]) && At(n, run, i + 1) == Apply(At(n, run, i), run[i])
  {
    hide Enabled, Apply;
    var more := run[..i + 1];
    PrefixRuns(n, run, i + 1);
    assert more[..|more| - 1] == run[..i] && more[|more| - 1] == run[i];
  }

  /** A longer run passes through the same states. */
  lemma SameAt(n: nat, run: seq<Step>, longer: seq<Step>, i: nat)
    requires Run(n, longer).Some? && run <= longer && i <= |run|
    ensures Run(n, run).Some? && At(n, run, i) == At(n, longer, i)
  {
    PrefixRuns(n, longer, |run|);
    assert longer[..|run|] == run && longer[..i] == run[..i];
  }

  lemma LastState(n: nat, run: seq<Step>)
    requires Run(n, run).Some?
    ensures At(n, run, |run|) == Run(n, run).value
  {
    assert run[..|run|] == run;
  }

  // ----- what later steps keep -----

  ghost predicate CheckpointsGrown(a: map<RoomId, nat>, b: map<RoomId, nat>) {
    forall r :: r in a ==> r in b && a[r] <= b[r]
  }

  ghost predicate JobsKept(a: seq<Job>, b: seq<Job>) {
    |a| <= |b| && forall i :: 0 <= i < |a| ==> b[i] == a[i].(open := b[i].open)
  }

  /** Checkpoints never decrease, accepted likes stay accepted and statements keep what they carry. */
  ghost predicate Grown(s: State, t: State) {
    && CheckpointsGrown(s.checkpoints, t.checkpoints) && JobsKept(s.jobs, t.jobs)
    && forall r :: Get(s.accepted, r) <= Get(t.accepted, r)
  }

  lemma StepGrows(s: State, step: Step)
    requires Enabled(s, step)
    ensures Grown(s, Apply(s, step))
  {
    hide Taken, PutBack, Published, Forgotten, Restores;
  }

  lemma {:induction false} LaterGrows(n: nat, run: seq<Step>, i: nat, j: nat)
    requires Run(n, run).Some? && i <= j <= |run|
    ensures Grown(At(n, run, i), At(n, run, j))
    decreases j
  {
    hide Apply, Enabled, Run;
    if i < j {
      LaterGrows(n, run, i, j - 1);
      StepAt(n, run, j - 1);
      StepGrows(At(n, run, j - 1), run[j - 1]);
    }
  }

  lemma StepRaises(s: State, step: Step, r: RoomId)
    requires Enabled(s, step) && !(step.Forget? && step.total && step.room == r)
    ensures Get(s.totals, r) <= Get(Apply(s, step).totals, r)
  {
    hide Taken, PutBack, Published, Restores;
  }

  lemma {:induction false} TotalsGrow(n: nat, run: seq<Step>, i: nat, j: nat, r: RoomId)
    requires Run(n, run).Some? && i <= j <= |run| && KeepsTotal(run, i, j, r)
    ensures Get(At(n, run, i).totals, r) <= Get(At(n, run, j).totals, r)
    decreases j
  {
    hide Apply, Enabled, Run;
    if i < j {
      TotalsGrow(n, run, i, j - 1, r);
      StepAt(n, run, j - 1);
      StepRaises(At(n, run, j - 1), run[j - 1], r);
    }
  }

  // ----- checkpoints -----

  /** Step `i` reads the room's total and step `j` saves that very value. */
  ghost predicate SavedBy(n: nat, run: seq<Step>, i: nat, j: nat, r: RoomId) {
    Run(n, run).Some? && i < j < |run| && run[i] == ReadTotal(r) && run[j] == SaveTotal(|At(n, run, i).jobs|)
  }

  lemma SaveEffect(s: State, i: nat)
    requires Enabled(s, SaveTotal(i))
    ensures Get(Apply(s, SaveTotal(i)).checkpoints, s.jobs[i].room) >= s.jobs[i].count
  {
  }

  /** From the save on, the checkpoint is at least the total that was read. */
  lemma SavedCovers(n: nat, run: seq<Step>, i: nat, j: nat, k: nat, r: RoomId)
    requires SavedBy(n, run, i, j, r) && j < k <= |run|
    ensures Get(At(n, run, k).checkpoints, r) >= Get(At(n, run, i).totals, r)
  {
    hide Run, Enabled, Saved, Restores;
    var s := At(n, run, i);
    StepAt(n, run, i);
    StepAt(n, run, j);
    LaterGrows(n, run, i + 1, j);
    LaterGrows(n, run, j + 1, k);
    assert At(n, run, i + 1).jobs[|s.jobs|] == Job(ToSave, r, Get(s.totals, r), true);
    assert Enabled(At(n, run, j), SaveTotal(|s.jobs|));
    assert |s.jobs| < |At(n, run, j).jobs|;
    SaveEffect(At(n, run, j), |s.jobs|);
  }

  /** The accepted likes that a room's total does not count. */
  ghost function Missing(s: State, r: RoomId): int {
    Get(s.accepted, r) - Get(s.totals, r)
  }

  lemma MissingIsCount(n: nat, run: seq<Step>, i: nat, r: RoomId)
    requires Run(n, run).Some? && i <= |run|
    ensures 0 <= Missing(At(n, run, i), r) && (KeepsTotal(run, 0, i, r) ==> Missing(At(n, run, i), r) == 0)
  {
    PrefixRuns(n, run, i);
    CountsWereAccepted(n, run[..i]);
    if KeepsTotal(run, 0, i, r) {
      assert KeepsTotal(run[..i], 0, i, r);
      TotalIsAccepted(n, run[..i], r);
    }
  }

  /**
   After a recovery begun after the save, which has raised the total to the checkpoint it found, a room misses at
   most the likes accepted since that checkpoint was read, and those missing at the read; none were missing then if
   Redis had not lost the total before. Later losses of the total are outside.
   */
  lemma RecoveryBound(n: nat, run: seq<Step>, i: nat, j: nat, start: nat, restored: nat, r: RoomId)
    requires SavedBy(n, run, i, j, r) && j < start <= restored <= |run|
    requires Get(At(n, run, restored).totals, r) >= Get(At(n, run, start).checkpoints, r)
    requires KeepsTotal(run, restored, |run|, r)
    ensures var s, t := At(n, run, i), Run(n, run).value;
      && 0 <= Missing(t, r) <= Missing(s, r) + (Get(t.accepted, r) - Get(s.accepted, r))
      && (KeepsTotal(run, 0, i, r) ==> Missing(t, r) <= Get(t.accepted, r) - Get(s.accepted, r))
  {
    hide Run;
    LastState(n, run);
    SavedCovers(n, run, i, j, start, r);
    TotalsGrow(n, run, restored, |run|, r);
    MissingIsCount(n, run, i, r);
    MissingIsCount(n, run, |run|, r);
  }

  /** A total lost before the read is not brought back: the five likes stay missing, none accepted since the read. */
  lemma LossBeforeReadStays(n: nat) returns (run: seq<Step>, s: State)
    ensures Run(n, run) == Some(s) && SavedBy(n, run, 2, 3, 1)
    ensures run[4..] == [LoadPage([1]), RestoreTotal(1)]
    ensures Missing(s, 1) == 5 && Get(At(n, run, 2).accepted, 1) == Get(s.accepted, 1)
  {
    hide Run, CountsOk, Taken, PutBack, Published;
    assert Run(n, []) == Some(Init(n)) by { NoSteps(n); }
    run, s := Extend(n, [], Init(n), AddLikes(1, 5));
    run, s := Extend(n, run, s, Forget(1, true, false));
    var prefix, read := run, s;
    run, s := Extend(n, run, s, ReadTotal(1));
    run, s := Extend(n, run, s, SaveTotal(0));
    run, s := Recovered(n, run, s);
    assert run[..2] == prefix;
    assert At(n, run, 2) == read;
  }

  lemma NoSteps(n: nat)
    ensures Run(n, []) == Some(Init(n))
  {
  }

  lemma Recovered(n: nat, run: seq<Step>, s: State) returns (longer: seq<Step>, t: State)
    requires Run(n, run) == Some(s) && 1 in s.checkpoints && s.checkpoints[1] == 0 && |s.jobs| == 1
    ensures Run(n, longer) == Some(t) && longer == run + [LoadPage([1]), RestoreTotal(1)]
    ensures Get(t.totals, 1) == Get(s.totals, 1) && t.accepted == s.accepted
  {
    hide Run;
    longer, t := Extend(n, run, s, LoadPage([1]));
    assert t.jobs[1] == Job(ToRestore, 1, 0, true);
    longer, t := Extend(n, longer, t, RestoreTotal(1));
  }
}
