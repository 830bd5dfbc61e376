/**
 Like counters: AddLikes of the Redis store, Aggregator.Tick of internal/stats for a fixed number of aggregators,
 and the snapshotter of internal/like that checkpoints totals in MySQL and restores them. All calls interleave;
 every remote call may fail, Redis may lose keys, and what a caller has given up may still take effect later.
 accepted, broadcasts, shown and lost record history.
 */
module Likes {
  import opened Basics

  type RoomId = r: int | -MAX_INT64 - 1 <= r <= MAX_INT64

  /** A delta taken from Redis and held in memory by one aggregator. */
  datatype Phase = Took | Snapped(total: nat) | Ready(total: nat) | MustRestore

  datatype Held = Held(room: RoomId, delta: nat, phase: Phase)

  datatype Broadcast = Broadcast(room: RoomId, total: nat, delta: nat)

  /** A publish and the number of acknowledged ones before it. */
  datatype Delivery = Delivery(b: Broadcast, after: nat)

  datatype Kind = ToSave | ToRestore

  /** A statement of a snapshotter with the count it carries; it executes at most once, if at all. */
  datatype Job = Job(kind: Kind, room: RoomId, count: nat, open: bool)

  /** `broadcasts` are the acknowledged publishes, `failed` the others, `shown` all that reached the viewers. */
  datatype State = State(
    totals: map<RoomId, nat>,
    deltas: map<RoomId, nat>,
    slots: seq<Option<Held>>,
    checkpoints: map<RoomId, nat>,
    jobs: seq<Job>,
    accepted: map<RoomId, nat>,
    broadcasts: seq<Broadcast>,
    failed: seq<Delivery>,
    arrived: set<nat>,
    shown: seq<Delivery>,
    lost: map<RoomId, nat>)

  datatype Step =
    | AddLikes(room: RoomId, count: nat)
    | Take(a: nat, room: RoomId, replied: bool)
    | Snapshot(a: nat, ok: bool)
    | LastViewer(a: nat, ok: bool, changed: bool)
    | Publish(a: nat, acked: bool)
    | Arrive(i: nat)
    | Restore(a: nat, executed: bool)
    | Crash(a: nat)
    | Forget(room: RoomId, total: bool, pending: bool)
    | ReadTotal(room: RoomId)
    | SaveTotal(i: nat)
    | LoadPage(rooms: seq<RoomId>)
    | RestoreTotal(i: nat)

  function Init(aggregators: nat): State {
    State(map[], map[], seq(aggregators, _ => None), map[], [], map[], [], [], {}, [], map[])
  }

  function Get(m: map<RoomId, nat>, r: RoomId): nat {
    if r in m then m[r] else 0
  }

  function Add(m: map<RoomId, nat>, r: RoomId, n: nat): map<RoomId, nat> {
    m[r := Get(m, r) + n]
  }

  function Max(a: nat, b: nat): nat {
    if a < b then b else a
  }

  predicate Holding(s: State, a: nat) {
    a < |s.slots| && s.slots[a].Some?
  }

  predicate Open(s: State, i: nat, kind: Kind) {
    i < |s.jobs| && s.jobs[i].open && s.jobs[i].kind == kind
  }

  predicate Enabled(s: State, step: Step) {
    match step
    case AddLikes(_, count) => count >= 1
    case Take(a, _, _) => a < |s.slots| && s.slots[a] == None
    case Snapshot(a, _) => Holding(s, a) && s.slots[a].value.phase == Took
    case LastViewer(a, _, _) => Holding(s, a) && s.slots[a].value.phase.Snapped?
    case Publish(a, _) => Holding(s, a) && s.slots[a].value.phase.Ready?
    case Arrive(i) => i < |s.failed| && i !in s.arrived
    case Restore(a, _) => Holding(s, a) && s.slots[a].value.phase == MustRestore
    case Crash(a) => Holding(s, a)
    case Forget(_, _, _) => true
    case ReadTotal(_) => true
    case SaveTotal(i) => Open(s, i, ToSave)
    case LoadPage(rooms) => forall i :: 0 <= i < |rooms| ==> rooms[i] in s.checkpoints
    case RestoreTotal(i) => Open(s, i, ToRestore)
  }

  function Keep(s: State, a: nat, held: Option<Held>): State
    requires a < |s.slots|
  {
    s.(slots := s.slots[a := held])
  }

  function Lose(s: State, r: RoomId, n: nat): State {
    s.(lost := Add(s.lost, r, n))
  }

  /** An acknowledged publish has reached the viewers; a failed one may still do so. */
  function Published(s: State, b: Broadcast, acked: bool): (t: State)
    ensures t.totals == s.totals && t.checkpoints == s.checkpoints && t.jobs == s.jobs && t.accepted == s.accepted
    ensures t.deltas == s.deltas && t.slots == s.slots && t.arrived == s.arrived && t.lost == s.lost
  {
    var d := Delivery(b, |s.broadcasts|);
    if acked then s.(broadcasts := s.broadcasts + [b], shown := s.shown + [d]) else s.(failed := s.failed + [d])
  }

  /** Eviction, a failover or a restart without data takes the total, the pending delta or both. */
  function Forgotten(s: State, r: RoomId, total: bool, pending: bool): (t: State)
    ensures t.checkpoints == s.checkpoints && t.jobs == s.jobs && t.accepted == s.accepted && t.slots == s.slots
    ensures t.broadcasts == s.broadcasts && t.failed == s.failed && t.shown == s.shown && t.arrived == s.arrived
  {
    var t := if total then s.(totals := s.totals - {r}) else s;
    if pending then Lose(t.(deltas := s.deltas - {r}), r, Get(s.deltas, r)) else t
  }

  function Executed(s: State, i: nat): State
    requires i < |s.jobs|
  {
    s.(jobs := s.jobs[i := s.jobs[i].(open := false)])
  }

  /** INSERT ... ON DUPLICATE KEY UPDATE like_count=GREATEST(...) */
  function Saved(s: State, i: nat): State
    requires i < |s.jobs|
  {
    var j := s.jobs[i];
    Executed(s, i).(checkpoints := s.checkpoints[j.room := Max(Get(s.checkpoints, j.room), j.count)])
  }

  /** restoreLikeSnapshotScript raises the total to the checkpoint and never lowers it. */
  function Raised(s: State, i: nat): State
    requires i < |s.jobs|
  {
    var j := s.jobs[i];
    if Get(s.totals, j.room) < j.count then Executed(s, i).(totals := s.totals[j.room := j.count]) else Executed(s, i)
  }

  function Restores(s: State, rooms: seq<RoomId>): seq<Job>
    requires forall i :: 0 <= i < |rooms| ==> rooms[i] in s.checkpoints
  {
    seq(|rooms|, i requires 0 <= i < |rooms| => Job(ToRestore, rooms[i], s.checkpoints[rooms[i]], true))
  }

  predicate OfSnapshotter(step: Step) {
    step.ReadTotal? || step.SaveTotal? || step.LoadPage? || step.RestoreTotal?
  }

  function AfterSnapshot(h: Held, total: nat, ok: bool): Held {
    h.(phase := if ok then Snapped(total) else MustRestore)
  }

  function AfterLastViewer(h: Held, ok: bool, changed: bool): Option<Held>
    requires h.phase.Snapped?
  {
    if !ok then Some(h.(phase := MustRestore))
    else if h.delta == 0 && !changed then None
    else Some(h.(phase := Ready(h.phase.total)))
  }

  /** RestoreLikeDelta */
  function PutBack(s: State, a: nat, h: Held, executed: bool): (t: State)
    requires a < |s.slots|
    ensures t.totals == s.totals && t.checkpoints == s.checkpoints && t.jobs == s.jobs && t.accepted == s.accepted
    ensures t.broadcasts == s.broadcasts && t.failed == s.failed && t.shown == s.shown && t.arrived == s.arrived
    ensures t.slots == s.slots[a := None]
  {
    if executed then Keep(s, a, None).(deltas := Add(s.deltas, h.room, h.delta)) else Lose(Keep(s, a, None), h.room, h.delta)
  }

  /** GETDEL */
  function Taken(s: State, a: nat, r: RoomId, replied: bool): (t: State)
    requires a < |s.slots|
    ensures t.totals == s.totals && t.checkpoints == s.checkpoints && t.jobs == s.jobs && t.accepted == s.accepted
    ensures t.broadcasts == s.broadcasts && t.failed == s.failed && t.shown == s.shown && t.arrived == s.arrived
  {
    var t := s.(deltas := s.deltas - {r});
    if replied then Keep(t, a, Some(Held(r, Get(s.deltas, r), Took))) else Lose(t, r, Get(s.deltas, r))
  }

  function Snapshotted(s: State, step: Step): (t: State)
    requires Enabled(s, step) && OfSnapshotter(step)
    ensures t.deltas == s.deltas && t.slots == s.slots && t.accepted == s.accepted && t.lost == s.lost
    ensures t.broadcasts == s.broadcasts && t.failed == s.failed && t.shown == s.shown && t.arrived == s.arrived
  {
    match step
    case ReadTotal(r) => s.(jobs := s.jobs + [Job(ToSave, r, Get(s.totals, r), true)])
    case SaveTotal(i) => Saved(s, i)
    case LoadPage(rooms) => s.(jobs := s.jobs + Restores(s, rooms))
    case RestoreTotal(i) => Raised(s, i)
  }

  function Apply(s: State, step: Step): State
    requires Enabled(s, step)
  {
    match step
    case AddLikes(r, n) => s.(totals := Add(s.totals, r, n), deltas := Add(s.deltas, r, n), accepted := Add(s.accepted, r, n))
    case Forget(r, total, pending) => Forgotten(s, r, total, pending)
    case Arrive(i) => s.(arrived := s.arrived + {i}, shown := s.shown + [s.failed[i]])
    case Take(a, r, replied) => Taken(s, a, r, replied)
    case Snapshot(a, ok) => Keep(s, a, Some(AfterSnapshot(s.slots[a].value, Get(s.totals, s.slots[a].value.room), ok)))
    case LastViewer(a, ok, changed) => Keep(s, a, AfterLastViewer(s.slots[a].value, ok, changed))
    case Publish(a, acked) =>
      var h := s.slots[a].value;
      var t := Published(s, Broadcast(h.room, h.phase.total, h.delta), acked);
      Keep(t, a, if acked then None else Some(h.(phase := MustRestore)))
    case Restore(a, executed) => PutBack(s, a, s.slots[a].value, executed)
    case Crash(a) => PutBack(s, a, s.slots[a].value, false)
    case ReadTotal(_) => Snapshotted(s, step)
    case SaveTotal(_) => Snapshotted(s, step)
    case LoadPage(_) => Snapshotted(s, step)
    case RestoreTotal(_) => Snapshotted(s, step)
  }

  function Run(aggregators: nat, run: seq<Step>): Option<State> {
    if run == [] then Some(Init(aggregators))
    else match Run(aggregators, run[..|run| - 1])
      case None => None
      case Some(s) => if Enabled(s, run[|run| - 1]) then Some(Apply(s, run[|run| - 1])) else None
  }

  lemma Extend(aggregators: nat, run: seq<Step>, s: State, step: Step) returns (longer: seq<Step>, t: State)
    requires Run(aggregators, run) == Some(s) && Enabled(s, step)
    ensures longer == run + [step] && t == Apply(s, step) && Run(aggregators, longer) == Some(t)
  {
    longer, t := run + [step], Apply(s, step);
    assert longer[..|run|] == run;
  }

  // ----- conservation -----

  function HeldFor(held: Option<Held>, r: RoomId): nat {
    if held.Some? && held.value.room == r then held.value.delta else 0
  }

  function InFlight(slots: seq<Option<Held>>, r: RoomId): nat {
    if slots == [] then 0 else HeldFor(slots[0], r) + InFlight(slots[1..], r)
  }

  /** The sum of the deltas of a room. */
  function Sum(broadcasts: seq<Broadcast>, r: RoomId): nat {
    if broadcasts == [] then 0
    else Sum(broadcasts[..|broadcasts| - 1], r) +
         (if broadcasts[|broadcasts| - 1].room == r then broadcasts[|broadcasts| - 1].delta else 0)
  }

  lemma {:induction false} InFlightUpdate(slots: seq<Option<Held>>, a: nat, held: Option<Held>, r: RoomId)
    requires a < |slots|
    ensures InFlight(slots[a := held], r) == InFlight(slots, r) - HeldFor(slots[a], r) + HeldFor(held, r)
    decreases |slots|
  {
    if a == 0 {
      assert slots[a := held][1..] == slots[1..];
    } else {
      assert slots[a := held][1..] == slots[1..][a - 1 := held];
      InFlightUpdate(slots[1..], a - 1, held, r);
    }
  }

  lemma {:induction false} InFlightEmpty(n: nat, r: RoomId)
    ensures InFlight(seq(n, _ => None), r) == 0
    decreases n
  {
    if n > 0 {
      var slots: seq<Option<Held>> := seq(n, _ => None);
      assert slots[1..] == seq(n - 1, _ => None);
      InFlightEmpty(n - 1, r);
    }
  }

  lemma SumAppend(broadcasts: seq<Broadcast>, b: Broadcast, r: RoomId)
    ensures Sum(broadcasts + [b], r) == Sum(broadcasts, r) + (if b.room == r then b.delta else 0)
  {
    assert (broadcasts + [b])[..|broadcasts|] == broadcasts;
  }

  /** Where the accepted likes of a room are. */
  ghost predicate Conserved(s: State, r: RoomId) {
    Get(s.accepted, r) == Get(s.deltas, r) + InFlight(s.slots, r) + Sum(s.broadcasts, r) + Get(s.lost, r)
  }

  /** A step of aggregator a changes only its slot; the rest is what it moved between the other places. */
  lemma SlotMoves(s: State, t: State, a: nat, r: RoomId)
    requires a < |s.slots| == |t.slots| && t.slots == s.slots[a := t.slots[a]] && Conserved(s, r)
    requires t.accepted == s.accepted
    requires Get(t.deltas, r) + HeldFor(t.slots[a], r) + Sum(t.broadcasts, r) + Get(t.lost, r) ==
             Get(s.deltas, r) + HeldFor(s.slots[a], r) + Sum(s.broadcasts, r) + Get(s.lost, r)
    ensures Conserved(t, r)
  {
    InFlightUpdate(s.slots, a, t.slots[a], r);
  }

  lemma AddConserves(s: State, step: Step, r: RoomId)
    requires Enabled(s, step) && Conserved(s, r) && step.AddLikes?
    ensures Conserved(Apply(s, step), r)
  {
    hide InFlight, Sum, Snapshotted, PutBack, Taken, Forgotten;
  }

  lemma ForgetConserves(s: State, step: Step, r: RoomId)
    requires Enabled(s, step) && Conserved(s, r) && step.Forget?
    ensures Conserved(Apply(s, step), r)
  {
    hide InFlight, Sum, Snapshotted, PutBack, Taken;
  }

  lemma TakeConserves(s: State, step: Step, r: RoomId)
    requires Enabled(s, step) && Conserved(s, r) && step.Take?
    ensures Conserved(Apply(s, step), r)
  {
    hide PutBack, Snapshotted;
    SlotMoves(s, Apply(s, step), step.a, r);
  }

  lemma ReadConserves(s: State, step: Step, r: RoomId)
    requires Enabled(s, step) && Conserved(s, r) && (step.Snapshot? || step.LastViewer?)
    ensures Conserved(Apply(s, step), r)
  {
    hide Conserved, InFlight, Sum, Snapshotted, Taken, Forgotten, Published;
    SlotMoves(s, Apply(s, step), step.a, r);
  }

  lemma PublishConserves(s: State, step: Step, r: RoomId)
    requires Enabled(s, step) && Conserved(s, r) && step.Publish?
    ensures Conserved(Apply(s, step), r)
  {
    hide Conserved, InFlight, Snapshotted, Taken, Forgotten;
    var t := Apply(s, step);
    if step.acked { SumAppend(s.broadcasts, t.broadcasts[|s.broadcasts|], r); }
    SlotMoves(s, t, step.a, r);
  }

  lemma ReturnConserves(s: State, step: Step, r: RoomId)
    requires Enabled(s, step) && Conserved(s, r) && (step.Restore? || step.Crash?)
    ensures Conserved(Apply(s, step), r)
  {
    hide Conserved, InFlight, Sum, Snapshotted, Taken, Forgotten, Published;
    SlotMoves(s, Apply(s, step), step.a, r);
  }

  lemma StepConserves(s: State, step: Step, r: RoomId)
    requires Enabled(s, step) && Conserved(s, r)
    ensures Conserved(Apply(s, step), r)
  {
    hide Snapshotted, PutBack, Taken, Forgotten, InFlight, Sum;
    match step
    case Take(_, _, _) => TakeConserves(s, step, r);
    case Snapshot(_, _) => ReadConserves(s, step, r);
    case LastViewer(_, _, _) => ReadConserves(s, step, r);
    case Publish(_, _) => PublishConserves(s, step, r);
    case Restore(_, _) => ReturnConserves(s, step, r);
    case Crash(_) => ReturnConserves(s, step, r);
    case AddLikes(_, _) => AddConserves(s, step, r);
    case Forget(_, _, _) => ForgetConserves(s, step, r);
    case _ =>
  }

  /**
   Likes are conserved under every interleaving: accepted = pending + in flight + acknowledged broadcasts + lost,
   for any number of aggregators.
   */
  lemma {:induction false} LikesConserved(aggregators: nat, run: seq<Step>, r: RoomId)
    requires Run(aggregators, run).Some?
    ensures Conserved(Run(aggregators, run).value, r)
  {
    if run == [] {
      InFlightEmpty(aggregators, r);
    } else {
      LikesConserved(aggregators, run[..|run| - 1], r);
      StepConserves(Run(aggregators, run[..|run| - 1]).value, run[|run| - 1], r);
    }
  }

  /**
   Likes are lost exactly by a crash holding them, a restore that did not happen, a GETDEL whose reply was lost, or
   the loss of the pending delta by Redis.
   */
  lemma LostOnlyWhen(s: State, step: Step, r: RoomId)
    requires Enabled(s, step)
    ensures Get(s.lost, r) <= Get(Apply(s, step).lost, r)
    ensures Get(s.lost, r) < Get(Apply(s, step).lost, r) <==>
      || (step.Crash? && HeldFor(s.slots[step.a], r) > 0)
      || (step.Restore? && !step.executed && HeldFor(s.slots[step.a], r) > 0)
      || (step.Take? && !step.replied && step.room == r && Get(s.deltas, r) > 0)
      || (step.Forget? && step.pending && step.room == r && Get(s.deltas, r) > 0)
  {
    hide Snapshotted, Taken, PutBack, Published, Forgotten;
    match step
    case Take(a, room, replied) => TakeLoses(s, a, room, replied, r);
    case Restore(a, executed) => PutBackLoses(s, a, s.slots[a].value, executed, r);
    case Crash(a) => PutBackLoses(s, a, s.slots[a].value, false, r);
    case Forget(room, total, pending) => ForgetLoses(s, room, total, pending, r);
    case _ =>
  }

  lemma TakeLoses(s: State, a: nat, room: RoomId, replied: bool, r: RoomId)
    requires a < |s.slots|
    ensures Get(Taken(s, a, room, replied).lost, r) ==
      Get(s.lost, r) + if !replied && room == r then Get(s.deltas, r) else 0
  {
  }

  lemma PutBackLoses(s: State, a: nat, h: Held, executed: bool, r: RoomId)
    requires a < |s.slots|
    ensures Get(PutBack(s, a, h, executed).lost, r) == Get(s.lost, r) + if executed then 0 else HeldFor(Some(h), r)
  {
  }

  lemma ForgetLoses(s: State, room: RoomId, total: bool, pending: bool, r: RoomId)
    ensures Get(Forgotten(s, room, total, pending).lost, r) ==
      Get(s.lost, r) + if pending && room == r then Get(s.deltas, r) else 0
  {
  }
}
