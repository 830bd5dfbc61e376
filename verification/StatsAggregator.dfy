/** Aggregator.Tick of internal/stats as code, run by one aggregator among others. Every execution is a run of module Likes. */
module StatsAggregator {
  import opened Basics
  import opened Likes
  import opened LikeStore

  /** What became of one room in a tick. */
  datatype RoomResult = NotTaken | Unchanged | Broadcasted(b: Broadcast) | GivenBack

  lemma {:induction false} BroadcastsStay(aggregators: nat, run: seq<Step>, longer: seq<Step>)
    requires run <= longer && Run(aggregators, longer).Some?
    ensures Run(aggregators, run).Some?
    ensures Run(aggregators, run).value.broadcasts <= Run(aggregators, longer).value.broadcasts
    decreases |longer|
  {
    hide Apply, Enabled;
    if run != longer {
      var before := longer[..|longer| - 1];
      assert run <= before;
      BroadcastsStay(aggregators, run, before);
      BroadcastsGrow(Run(aggregators, before).value, longer[|longer| - 1]);
    }
  }

  lemma BroadcastsGrow(s: State, step: Step)
    requires Enabled(s, step)
    ensures s.broadcasts <= Apply(s, step).broadcasts
  {
    hide Snapshotted, Taken, PutBack, Forgotten;
  }

  class Aggregator {
    const store: Store
    const a: nat

    constructor (store: Store, a: nat)
      ensures this.store == store && this.a == a
    {
      this.store, this.a := store, a;
    }

    /** RestoreLikeDelta, called only for a positive delta and with its error ignored. */
    method GiveBack(h: Held, healthy: bool)
      requires h.phase == MustRestore && store.Holds(a, Some(h))
      modifies store
      ensures store.Holds(a, None) && old(store.run) <= store.run
      ensures healthy ==> Get(store.st.deltas, h.room) >= h.delta
    {
      store.Others(a, Some(h));
      var executed: bool := *;
      store.Do(Restore(a, healthy || executed));
    }

    /** The snapshot and the last published viewer count; a failure of either gives the delta back. */
    method Load(h: Held, snapshotWorks: bool, viewerWorks: bool, viewerChanged: bool, healthy: bool)
      returns (ready: Option<Held>, r: RoomResult)
      requires h.phase == Took && store.Holds(a, Some(h))
      modifies store
      ensures old(store.run) <= store.run && store.Holds(a, ready)
      ensures ready.Some? ==> ready.value.room == h.room && ready.value.delta == h.delta && ready.value.phase.Ready?
      ensures ready.Some? <==> snapshotWorks && viewerWorks && (h.delta > 0 || viewerChanged)
      ensures ready == None ==> r == if snapshotWorks && viewerWorks then Unchanged else GivenBack
      ensures ready == None && r == GivenBack && healthy ==> Get(store.st.deltas, h.room) >= h.delta
    {
      store.Others(a, Some(h));
      store.Do(Snapshot(a, snapshotWorks));
      var q := store.st.slots[a].value;
      ready, r := None, GivenBack;
      if !snapshotWorks {
        GiveBack(q, healthy);
        return;
      }
      store.Others(a, Some(q));
      store.Do(LastViewer(a, viewerWorks, viewerChanged));
      if !viewerWorks {
        GiveBack(store.st.slots[a].value, healthy);
        return;
      }
      ready := store.st.slots[a];
      if ready == None { r := Unchanged; }
    }

    /** One room: take all that is pending, read the snapshot, broadcast, or give the delta back. */
    method TickRoom(room: RoomId, takes: bool, snapshotWorks: bool, viewerWorks: bool, viewerChanged: bool,
                    publishes: bool, healthy: bool)
      returns (r: RoomResult, taken: nat, ghost asked: seq<Step>)
      requires store.Holds(a, None)
      modifies store
      ensures store.Holds(a, None) && old(store.run) <= asked <= store.run
      ensures r == NotTaken <==> !takes
      ensures Run(store.aggregators, asked).Some?
      ensures takes ==> taken == Get(Run(store.aggregators, asked).value.deltas, room)
      ensures r.Broadcasted? <==> takes && snapshotWorks && viewerWorks && publishes && (taken > 0 || viewerChanged)
      ensures r.Broadcasted? ==> r.b.room == room && r.b.delta == taken && r.b in store.st.broadcasts
      ensures r == Unchanged ==> taken == 0
      ensures takes && snapshotWorks && viewerWorks && publishes ==> r.Broadcasted? || r == Unchanged
      ensures r == GivenBack && healthy ==> Get(store.st.deltas, room) >= taken
    {
      store.Others(a, None);
      taken, asked := 0, store.run;
      if !takes {
        var executed: bool := *;
        if executed { store.Do(Take(a, room, false)); }
        return NotTaken, taken, asked;
      }
      store.Do(Take(a, room, true));
      var h := store.st.slots[a].value;
      taken := h.delta;
      var ready: Option<Held>;
      ready, r := Load(h, snapshotWorks, viewerWorks, viewerChanged, healthy);
      if ready == None { return; }
      store.Others(a, ready);
      store.Do(Publish(a, publishes));
      if publishes {
        r := Broadcasted(store.st.broadcasts[|store.st.broadcasts| - 1]);
      } else {
        r := GivenBack;
        GiveBack(store.st.slots[a].value, healthy);
      }
    }

    static ghost predicate Reported(st: State, room: RoomId, works: bool, r: RoomResult) {
      && (r.Broadcasted? ==> r.b.room == room && r.b in st.broadcasts)
      && (works ==> r.Broadcasted? || r == Unchanged)
    }

    /** One turn of Tick's loop, with the failures that are not excluded by works left open. */
    method TickNext(room: RoomId, works: bool) returns (r: RoomResult)
      requires store.Holds(a, None)
      modifies store
      ensures store.Holds(a, None) && old(store.run) <= store.run && Reported(store.st, room, works, r)
      ensures forall b :: b in old(store.st.broadcasts) ==> b in store.st.broadcasts
    {
      ghost var before, shown := store.run, store.st.broadcasts;
      var takes: bool, loads: bool, sees: bool, publishes: bool, changed: bool := *, *, *, *, *;
      var taken: nat;
      ghost var asked;
      r, taken, asked := TickRoom(room, works || takes, works || loads, works || sees, changed, works || publishes, works);
      BroadcastsStay(store.aggregators, before, store.run);
      assert shown <= store.st.broadcasts;
    }

    /** All active rooms in turn; a failure in one room does not stop the others, and no delta stays in memory. */
    method Tick(rooms: seq<RoomId>, works: seq<bool>) returns (results: seq<RoomResult>)
      requires store.Holds(a, None) && |works| == |rooms|
      modifies store
      ensures store.Holds(a, None) && old(store.run) <= store.run
      ensures |results| == |rooms|
      ensures forall i :: 0 <= i < |rooms| ==> Reported(store.st, rooms[i], works[i], results[i])
    {
      results := [];
      while |results| < |rooms|
        invariant |results| <= |rooms|
        invariant store.Holds(a, None) && old(store.run) <= store.run
        invariant forall i :: 0 <= i < |results| ==> Reported(store.st, rooms[i], works[i], results[i])
      {
        var r := TickNext(rooms[|results|], works[|results|]);
        results := results + [r];
      }
    }
  }
}
