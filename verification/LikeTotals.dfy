/** What the totals shown to viewers say about the deltas shown to them. */
module LikeTotals {
  import opened Basics
  import opened Likes

  /** Each total shown is at least the sum of all deltas shown up to and including its own. */
  ghost predicate TotalsCover(shown: seq<Broadcast>) {
    forall k :: 0 <= k < |shown| ==> shown[k].total >= Sum(shown[..k + 1], shown[k].room)
  }

  /** Everything the viewers have received, in order. */
  function Shown(s: State): (shown: seq<Broadcast>)
    ensures |shown| == |s.shown|
  {
    seq(|s.shown|, k requires 0 <= k < |s.shown| => s.shown[k].b)
  }

  /** No publish that was reported as failed reached the viewers. */
  predicate Reported(run: seq<Step>) {
    forall k :: 0 <= k < |run| ==> !run[k].Arrive?
  }

  /** Redis never lost a total. */
  predicate Remembers(run: seq<Step>) {
    forall k :: 0 <= k < |run| ==> !(run[k].Forget? && run[k].total)
  }

  /** Redis did not lose the room's total between two steps. */
  predicate KeepsTotal(run: seq<Step>, i: nat, j: nat, r: RoomId)
    requires j <= |run|
  {
    forall k :: i <= k < j ==> !(run[k].Forget? && run[k].total && run[k].room == r)
  }

  // ----- one aggregator -----

  /** What is counted of a room never exceeds what was accepted. */
  ghost predicate CountsOk(s: State) {
    && (forall r :: Get(s.totals, r) <= Get(s.accepted, r) && Get(s.checkpoints, r) <= Get(s.accepted, r))
    && (forall i :: 0 <= i < |s.jobs| ==> s.jobs[i].count <= Get(s.accepted, s.jobs[i].room))
  }

  lemma StepKeepsCounts(s: State, step: Step)
    requires CountsOk(s) && Enabled(s, step)
    ensures CountsOk(Apply(s, step))
  {
    hide PutBack, Published, Taken, Snapshotted, Forgotten, Get;
    if OfSnapshotter(step) {
      SnapshotterKeepsCounts(s, step);
    } else if step.AddLikes? || step.Forget? {
      StoreKeepsCounts(s, step);
    }
  }

  lemma StoreKeepsCounts(s: State, step: Step)
    requires CountsOk(s) && Enabled(s, step) && (step.AddLikes? || step.Forget?)
    ensures CountsOk(Apply(s, step))
  {
    hide PutBack, Published, Taken, Snapshotted;
    assert forall r :: Get(s.accepted, r) <= Get(Apply(s, step).accepted, r);
  }

  lemma SnapshotterKeepsCounts(s: State, step: Step)
    requires CountsOk(s) && Enabled(s, step) && OfSnapshotter(step)
    ensures CountsOk(Apply(s, step))
  {
    hide PutBack, Published, Taken, Forgotten;
    if step.LoadPage? {
      PageKeepsCounts(s, step.rooms);
    } else {
      JobKeepsCounts(s, step);
    }
  }

  lemma JobKeepsCounts(s: State, step: Step)
    requires CountsOk(s) && Enabled(s, step) && OfSnapshotter(step) && !step.LoadPage?
    ensures CountsOk(Apply(s, step))
  {
    hide PutBack, Published, Taken, Forgotten, Restores;
    if !step.ReadTotal? { assert s.jobs[step.i].count <= Get(s.accepted, s.jobs[step.i].room); }
  }

  lemma PageKeepsCounts(s: State, rooms: seq<RoomId>)
    requires CountsOk(s) && forall i :: 0 <= i < |rooms| ==> rooms[i] in s.checkpoints
    ensures CountsOk(s.(jobs := s.jobs + Restores(s, rooms)))
  {
    var jobs := s.jobs + Restores(s, rooms);
    forall i | |s.jobs| <= i < |jobs| ensures jobs[i].count <= Get(s.accepted, jobs[i].room) {
      assert Get(s.checkpoints, jobs[i].room) == jobs[i].count;
    }
  }

  /** No total, checkpoint or statement on its way counts a like that was not accepted, whatever Redis lost. */
  lemma {:induction false} CountsWereAccepted(aggregators: nat, run: seq<Step>)
    requires Run(aggregators, run).Some?
    ensures CountsOk(Run(aggregators, run).value)
  {
    if run != [] {
      CountsWereAccepted(aggregators, run[..|run| - 1]);
      StepKeepsCounts(Run(aggregators, run[..|run| - 1]).value, run[|run| - 1]);
    }
  }

  lemma StepKeepsTotal(s: State, step: Step, r: RoomId)
    requires CountsOk(s) && Enabled(s, step) && Get(s.totals, r) == Get(s.accepted, r)
    requires !(step.Forget? && step.total && step.room == r)
    ensures Get(Apply(s, step).totals, r) == Get(Apply(s, step).accepted, r)
  {
    hide PutBack, Published, Taken, Restores;
    if step.RestoreTotal? { assert s.jobs[step.i].count <= Get(s.accepted, s.jobs[step.i].room); }
  }

  /** As long as Redis keeps it, a room's total is exactly what was accepted. */
  lemma {:induction false} TotalIsAccepted(aggregators: nat, run: seq<Step>, r: RoomId)
    requires Run(aggregators, run).Some?
    requires KeepsTotal(run, 0, |run|, r)
    ensures Get(Run(aggregators, run).value.totals, r) == Get(Run(aggregators, run).value.accepted, r)
  {
    if run != [] {
      TotalIsAccepted(aggregators, run[..|run| - 1], r);
      CountsWereAccepted(aggregators, run[..|run| - 1]);
      StepKeepsTotal(Run(aggregators, run[..|run| - 1]).value, run[|run| - 1], r);
    }
  }

  /** The total of a publish covers what was acknowledged before it and its own delta. */
  ghost predicate DeliveryOk(d: Delivery, broadcasts: seq<Broadcast>) {
    d.after <= |broadcasts| && d.b.total >= Sum(broadcasts[..d.after], d.b.room) + d.b.delta
  }

  ghost predicate DeliveriesOk(ds: seq<Delivery>, broadcasts: seq<Broadcast>) {
    forall k :: 0 <= k < |ds| ==> DeliveryOk(ds[k], broadcasts)
  }

  ghost predicate SnapshotCovers(s: State) {
    forall a :: 0 <= a < |s.slots| && s.slots[a].Some? && (s.slots[a].value.phase.Snapped? || s.slots[a].value.phase.Ready?) ==>
      var h := s.slots[a].value; h.phase.total >= Sum(s.broadcasts, h.room) + h.delta
  }

  ghost predicate Covers(s: State) {
    |s.slots| <= 1 && DeliveriesOk(s.shown, s.broadcasts) && DeliveriesOk(s.failed, s.broadcasts) && SnapshotCovers(s)
  }

  lemma DeliveriesStay(ds: seq<Delivery>, broadcasts: seq<Broadcast>, b: Broadcast)
    requires DeliveriesOk(ds, broadcasts)
    ensures DeliveriesOk(ds, broadcasts + [b])
  {
    forall k | 0 <= k < |ds| ensures DeliveryOk(ds[k], broadcasts + [b]) {
      assert DeliveryOk(ds[k], broadcasts);
      assert (broadcasts + [b])[..ds[k].after] == broadcasts[..ds[k].after];
    }
  }

  lemma PublishKeepsCover(s: State, step: Step)
    requires Enabled(s, step) && step.Publish? && Covers(s)
    ensures Covers(Apply(s, step))
  {
    var h, t := s.slots[step.a].value, Apply(s, step);
    var b := Broadcast(h.room, h.phase.total, h.delta);
    assert s.broadcasts[..|s.broadcasts|] == s.broadcasts;
    assert DeliveryOk(Delivery(b, |s.broadcasts|), s.broadcasts);
    if step.acked {
      DeliveriesStay(s.shown + [Delivery(b, |s.broadcasts|)], s.broadcasts, b);
      DeliveriesStay(s.failed, s.broadcasts, b);
    }
  }

  /** A total read now covers what was broadcast and what is held: nothing else can have been taken. */
  lemma SnapshotKeepsCover(s: State, step: Step)
    requires Enabled(s, step) && step.Snapshot? && Covers(s)
    requires var r := s.slots[step.a].value.room; Conserved(s, r) && Get(s.totals, r) == Get(s.accepted, r)
    ensures Covers(Apply(s, step))
  {
    var r := s.slots[step.a].value.room;
    assert InFlight(s.slots, r) == HeldFor(s.slots[0], r) + InFlight(s.slots[1..], r);
  }

  lemma StepKeepsCover(s: State, step: Step)
    requires Enabled(s, step) && Covers(s)
    requires forall r :: Conserved(s, r) && Get(s.totals, r) == Get(s.accepted, r)
    ensures Covers(Apply(s, step))
  {
    hide Conserved, Apply, Covers;
    match step
    case Publish(_, _) => PublishKeepsCover(s, step);
    case Snapshot(_, _) => SnapshotKeepsCover(s, step);
    case Arrive(_) => QuietKeepsCover(s, step);
    case AddLikes(_, _) => QuietKeepsCover(s, step);
    case Forget(_, _, _) => QuietKeepsCover(s, step);
    case _ => if OfSnapshotter(step) { AsideKeepsCover(s, step); } else { SlotKeepsCover(s, step); }
  }

  lemma AsideKeepsCover(s: State, step: Step)
    requires Enabled(s, step) && Covers(s) && OfSnapshotter(step)
    ensures Covers(Apply(s, step))
  {
    hide Snapshotted, PutBack, Published, Taken, Forgotten, DeliveriesOk, Sum;
  }

  lemma QuietKeepsCover(s: State, step: Step)
    requires Enabled(s, step) && Covers(s) && (step.Arrive? || step.AddLikes? || step.Forget?)
    ensures Covers(Apply(s, step))
  {
    hide DeliveryOk, Sum, Snapshotted, PutBack, Published, Taken;
  }

  lemma SlotKeepsCover(s: State, step: Step)
    requires Enabled(s, step) && Covers(s) && (step.Take? || step.LastViewer? || step.Restore? || step.Crash?)
    ensures Covers(Apply(s, step))
  {
    hide DeliveriesOk, Sum, PutBack, Published, Snapshotted, Forgotten;
  }

  /**
   With one aggregator and no total lost by Redis, every total that reaches the viewers, reported or not and however
   late, is at least the deltas acknowledged before it was published plus its own.
   */
  lemma {:induction false} OneAggregatorCovers(aggregators: nat, run: seq<Step>)
    requires aggregators <= 1 && Run(aggregators, run).Some? && Remembers(run)
    ensures Covers(Run(aggregators, run).value)
  {
    if run != [] {
      var before := run[..|run| - 1];
      OneAggregatorCovers(aggregators, before);
      forall r
        ensures Conserved(Run(aggregators, before).value, r)
        ensures Get(Run(aggregators, before).value.totals, r) == Get(Run(aggregators, before).value.accepted, r) {
        LikesConserved(aggregators, before, r);
        TotalIsAccepted(aggregators, before, r);
      }
      StepKeepsCover(Run(aggregators, before).value, run[|run| - 1]);
    }
  }

  /** If every delivered publish is reported, the viewers see exactly the acknowledged ones. */
  lemma {:induction false} ReportedAreShown(aggregators: nat, run: seq<Step>)
    requires Run(aggregators, run).Some? && Reported(run)
    ensures var s := Run(aggregators, run).value;
      Shown(s) == s.broadcasts && forall k :: 0 <= k < |s.shown| ==> s.shown[k].after == k
  {
    if run != [] {
      var before := run[..|run| - 1];
      ReportedAreShown(aggregators, before);
      var s, step := Run(aggregators, before).value, run[|run| - 1];
      if step.Publish? {
        PublishIsShown(s, step);
      } else {
        ShownOnlyBy(s, step);
      }
    }
  }

  lemma PublishIsShown(s: State, step: Step)
    requires Enabled(s, step) && step.Publish?
    requires Shown(s) == s.broadcasts && forall k :: 0 <= k < |s.shown| ==> s.shown[k].after == k
    ensures var t := Apply(s, step); Shown(t) == t.broadcasts && forall k :: 0 <= k < |t.shown| ==> t.shown[k].after == k
  {
    var t := Apply(s, step);
    assert |Shown(t)| == |t.broadcasts| && forall k :: 0 <= k < |s.shown| ==> Shown(s)[k] == s.shown[k].b;
  }

  /** Only a publish and a late arrival change what viewers have seen. */
  lemma ShownOnlyBy(s: State, step: Step)
    requires Enabled(s, step) && !step.Publish? && !step.Arrive?
    ensures var t := Apply(s, step); t.shown == s.shown && t.broadcasts == s.broadcasts && t.failed == s.failed
  {
    hide PutBack, Published, Taken, Snapshotted;
  }

  lemma ReportedCovers(aggregators: nat, run: seq<Step>)
    requires aggregators <= 1 && Run(aggregators, run).Some? && Remembers(run) && Reported(run)
    ensures TotalsCover(Shown(Run(aggregators, run).value))
  {
    OneAggregatorCovers(aggregators, run);
    ReportedAreShown(aggregators, run);
    var s := Run(aggregators, run).value;
    forall k | 0 <= k < |s.shown| ensures s.shown[k].b.total >= Sum(Shown(s)[..k + 1], s.shown[k].b.room) {
      assert DeliveryOk(s.shown[k], s.broadcasts);
      SumAppend(s.broadcasts[..k], s.shown[k].b, s.shown[k].b.room);
      assert Shown(s)[..k + 1] == s.broadcasts[..k] + [s.shown[k].b];
    }
  }

  // ----- runs that undercut -----

  lemma Undercut(shown: seq<Broadcast>, a: Broadcast, b: Broadcast)
    requires shown == [a, b] && a.room == b.room && b.total < a.delta + b.delta
    ensures !TotalsCover(shown)
  {
    assert shown[..1] == [] + [a] && shown[..1 + 1] == [a] + [b];
    SumAppend([], a, a.room);
    SumAppend([a], b, a.room);
    assert b.total < Sum(shown[..1 + 1], shown[1].room);
  }

  /** Both aggregators hold a delta of room 1; the first read the total before the second's likes arrived. */
  lemma TwoSnapshots(aggregators: nat) returns (run: seq<Step>, s: State)
    requires aggregators >= 2
    ensures Run(aggregators, run) == Some(s) && |s.slots| == aggregators && s.shown == [] && s.broadcasts == []
    ensures s.slots[0] == Some(Held(1, 5, Snapped(5))) && s.slots[1] == Some(Held(1, 3, Snapped(8)))
    ensures Reported(run) && Remembers(run)
  {
    run, s := [], Init(aggregators);
    run, s := Extend(aggregators, run, s, AddLikes(1, 5));
    run, s := Extend(aggregators, run, s, Take(0, 1, true));
    run, s := Extend(aggregators, run, s, Snapshot(0, true));
    run, s := Extend(aggregators, run, s, AddLikes(1, 3));
    run, s := Extend(aggregators, run, s, Take(1, 1, true));
    run, s := Extend(aggregators, run, s, Snapshot(1, true));
  }

  /** With two aggregators a snapshot taken early can be broadcast late, below the deltas already shown. */
  lemma TwoAggregatorsUndercut(aggregators: nat) returns (run: seq<Step>, s: State)
    requires aggregators >= 2
    ensures Run(aggregators, run) == Some(s) && Reported(run) && Remembers(run) && !TotalsCover(Shown(s))
  {
    run, s := TwoSnapshots(aggregators);
    run, s := Extend(aggregators, run, s, LastViewer(0, true, true));
    run, s := Extend(aggregators, run, s, LastViewer(1, true, true));
    run, s := Extend(aggregators, run, s, Publish(1, true));
    run, s := Extend(aggregators, run, s, Publish(0, true));
    Undercut(Shown(s), Broadcast(1, 8, 3), Broadcast(1, 5, 5));
  }

  /** Aggregator 0 takes, reads and is about to publish what room 1 has pending. */
  lemma Collect(aggregators: nat, run: seq<Step>, s: State) returns (longer: seq<Step>, t: State)
    requires Run(aggregators, run) == Some(s) && |s.slots| >= 1 && s.slots[0] == None
    ensures Run(aggregators, longer) == Some(t)
    ensures t == s.(deltas := s.deltas - {1}, slots := s.slots[0 := Some(Held(1, Get(s.deltas, 1), Ready(Get(s.totals, 1))))])
    ensures longer == run + [Take(0, 1, true), Snapshot(0, true), LastViewer(0, true, true)]
  {
    longer, t := Extend(aggregators, run, s, Take(0, 1, true));
    longer, t := Extend(aggregators, longer, t, Snapshot(0, true));
    longer, t := Extend(aggregators, longer, t, LastViewer(0, true, true));
    assert t.slots == s.slots[0 := Some(Held(1, Get(s.deltas, 1), Ready(Get(s.totals, 1))))];
  }

  lemma FirstLikes(aggregators: nat) returns (run: seq<Step>, s: State)
    requires aggregators >= 1
    ensures Run(aggregators, run) == Some(s) && Reported(run) && Remembers(run)
    ensures s.deltas == map[] && Get(s.totals, 1) == 5 && |s.slots| == aggregators
    ensures s.slots[0] == Some(Held(1, 5, Ready(5))) && s.shown == [] && s.failed == [] && s.broadcasts == []
    ensures s.arrived == {}
  {
    run, s := Extend(aggregators, [], Init(aggregators), AddLikes(1, 5));
    run, s := Collect(aggregators, run, s);
  }

  /** A publish that failed for the aggregator but reached the viewers is published again: 10 likes shown, total 5. */
  lemma UnreportedUndercuts(aggregators: nat) returns (run: seq<Step>, s: State)
    requires aggregators >= 1
    ensures Run(aggregators, run) == Some(s) && Remembers(run)
    ensures Shown(s) == [Broadcast(1, 5, 5), Broadcast(1, 5, 5)] && !TotalsCover(Shown(s))
  {
    run, s := FirstLikes(aggregators);
    run, s := Extend(aggregators, run, s, Publish(0, false));
    run, s := Extend(aggregators, run, s, Arrive(0));
    run, s := Extend(aggregators, run, s, Restore(0, true));
    run, s := Collect(aggregators, run, s);
    run, s := Extend(aggregators, run, s, Publish(0, true));
    Undercut(Shown(s), Broadcast(1, 5, 5), Broadcast(1, 5, 5));
  }

  /** When Redis loses the total, the next one shown starts again from zero. */
  lemma LossUndercuts(aggregators: nat) returns (run: seq<Step>, s: State)
    requires aggregators >= 1
    ensures Run(aggregators, run) == Some(s) && Reported(run)
    ensures Shown(s) == [Broadcast(1, 5, 5), Broadcast(1, 3, 3)] && !TotalsCover(Shown(s))
  {
    run, s := FirstLikes(aggregators);
    run, s := Extend(aggregators, run, s, Publish(0, true));
    run, s := Extend(aggregators, run, s, Forget(1, true, false));
    run, s := Extend(aggregators, run, s, AddLikes(1, 3));
    run, s := Collect(aggregators, run, s);
    run, s := Extend(aggregators, run, s, Publish(0, true));
    Undercut(Shown(s), Broadcast(1, 5, 5), Broadcast(1, 3, 3));
  }

  lemma NobodyActs(s: State, step: Step)
    requires Enabled(s, step) && s.slots == [] && s.failed == []
    ensures var t := Apply(s, step); t.slots == [] && t.failed == [] && t.shown == s.shown
  {
    hide PutBack, Published, Snapshotted, Taken;
  }

  lemma {:induction false} NobodyShows(run: seq<Step>)
    requires Run(0, run).Some?
    ensures var s := Run(0, run).value; s.slots == [] && s.failed == [] && s.shown == []
  {
    if run != [] {
      NobodyShows(run[..|run| - 1]);
      NobodyActs(Run(0, run[..|run| - 1]).value, run[|run| - 1]);
    }
  }

  // ----- exactly when -----

  /** If Redis keeps its totals and every delivered publish is reported: exactly with at most one aggregator. */
  lemma TotalsCoverIff(n: nat)
    ensures (forall run :: Run(n, run).Some? && Reported(run) && Remembers(run) ==> TotalsCover(Shown(Run(n, run).value)))
      <==> n <= 1
  {
    if n <= 1 {
      forall run | Run(n, run).Some? && Reported(run) && Remembers(run) ensures TotalsCover(Shown(Run(n, run).value)) {
        ReportedCovers(n, run);
      }
    } else {
      var run, s := TwoAggregatorsUndercut(n);
      assert Run(n, run).Some?;
    }
  }

  /** If a failed publish may reach the viewers, or Redis may lose a total: exactly without any aggregator. */
  lemma FaultsUncover(n: nat)
    ensures (forall run :: Run(n, run).Some? && Remembers(run) ==> TotalsCover(Shown(Run(n, run).value))) <==> n == 0
    ensures (forall run :: Run(n, run).Some? && Reported(run) ==> TotalsCover(Shown(Run(n, run).value))) <==> n == 0
  {
    if n == 0 {
      forall run | Run(n, run).Some? ensures TotalsCover(Shown(Run(n, run).value)) { NobodyShows(run); }
    } else {
      var run, s := UnreportedUndercuts(n);
      assert Run(n, run).Some?;
      var other, t := LossUndercuts(n);
      assert Run(n, other).Some?;
    }
  }
}
