/**
 internal/like/snapshot.go as code: checkpoints of like totals in MySQL and their recovery into Redis. Likes,
 aggregators, other snapshotters and losses of Redis data come between any two statements; a statement that was
 given up may still execute later. Every execution is a run of module Likes.
 */
module LikeSnapshots {
  import opened Basics
  import opened Likes
  import opened LikeTotals
  import opened LikeRecovery
  import opened LikeStore

  datatype Checkpoint = Checkpoint(room: RoomId, count: nat)

  // ----- pages -----

  /** The rooms of a page that the query returns: the smallest ids above the cursor. */
  ghost predicate IsPage(table: map<RoomId, nat>, page: seq<Checkpoint>, after: nat, limit: nat) {
    && |page| <= limit
    && (forall i :: 0 <= i < |page| ==>
          page[i].room > after && page[i].room in table && page[i].count == table[page[i].room])
    && (forall i, j :: 0 <= i < j < |page| ==> page[i].room < page[j].room)
    && (forall r :: r in table && r > after && (|page| < limit || (page != [] && r <= page[|page| - 1].room)) ==>
          r in Rooms(page))
  }

  function Rooms(page: seq<Checkpoint>): (rooms: seq<RoomId>)
    ensures |rooms| == |page| && forall i :: 0 <= i < |page| ==> rooms[i] == page[i].room
  {
    seq(|page|, i requires 0 <= i < |page| => page[i].room)
  }

  /** The rooms visited so far lie in ascending order between 1 and the cursor, and all of `start` there are among them. */
  ghost predicate Visited(start: map<RoomId, nat>, table: map<RoomId, nat>, visited: seq<RoomId>, cursor: nat) {
    && (forall i, j :: 0 <= i < j < |visited| ==> visited[i] < visited[j])
    && (forall i :: 0 <= i < |visited| ==> visited[i] in table && 0 < visited[i] <= cursor)
    && (forall r :: r in start && 0 < r <= cursor ==> r in visited)
  }

  /** A page extends the visited prefix of the table without a gap; a short page completes it. */
  lemma PageCovers(start: map<RoomId, nat>, table: map<RoomId, nat>, visited: seq<RoomId>, cursor: nat,
                   page: seq<Checkpoint>, limit: nat)
    requires CheckpointsGrown(start, table) && Visited(start, table, visited, cursor) && IsPage(table, page, cursor, limit)
    ensures forall i, j :: 0 <= i < j < |visited + Rooms(page)| ==> (visited + Rooms(page))[i] < (visited + Rooms(page))[j]
    ensures page != [] ==> page[|page| - 1].room > cursor && Visited(start, table, visited + Rooms(page), page[|page| - 1].room)
    ensures |page| < limit ==> forall r :: r in start && r > 0 ==> r in visited + Rooms(page)
  {
    var all := visited + Rooms(page);
    forall r | r in start && r > 0 && (|page| < limit || (page != [] && r <= page[|page| - 1].room))
      ensures r in all {
      if r > cursor { assert r in Rooms(page); } else { assert r in visited; }
    }
  }

  /** The rooms whose statement failed, in the order of their visits. */
  function Refused(visited: seq<RoomId>, refuses: set<RoomId>): seq<RoomId> {
    if visited == [] then []
    else Refused(visited[..|visited| - 1], refuses) +
         (if visited[|visited| - 1] in refuses then [visited[|visited| - 1]] else [])
  }

  lemma RefusedAppend(visited: seq<RoomId>, room: RoomId, refuses: set<RoomId>)
    ensures Refused(visited + [room], refuses) == Refused(visited, refuses) + if room in refuses then [room] else []
  {
    assert (visited + [room])[..|visited|] == visited;
  }

  // ----- what a round has done -----

  /** Since step `from` the room's total has been at least `count` at some moment. */
  ghost predicate Reached(n: nat, run: seq<Step>, from: nat, r: RoomId, count: nat) {
    Run(n, run).Some? && exists l :: from <= l <= |run| && Get(At(n, run, l).totals, r) >= count
  }

  /** Since step `from` the room's total has been read and that value saved. */
  ghost predicate Checkpointed(n: nat, run: seq<Step>, from: nat, r: RoomId) {
    exists i, j :: from <= i && SavedBy(n, run, i, j, r)
  }

  lemma ReachedStays(n: nat, run: seq<Step>, longer: seq<Step>, from: nat, r: RoomId, count: nat)
    requires Run(n, longer).Some? && run <= longer && Reached(n, run, from, r, count)
    ensures Reached(n, longer, from, r, count)
  {
    var l :| from <= l <= |run| && Get(At(n, run, l).totals, r) >= count;
    SameAt(n, run, longer, l);
  }

  lemma CheckpointedStays(n: nat, run: seq<Step>, longer: seq<Step>, from: nat, r: RoomId)
    requires Run(n, longer).Some? && run <= longer && Checkpointed(n, run, from, r)
    ensures Checkpointed(n, longer, from, r)
  {
    var i, j :| from <= i && SavedBy(n, run, i, j, r);
    SameAt(n, run, longer, i);
    assert SavedBy(n, longer, i, j, r);
  }

  /** Every visited room that was not refused has been raised to the checkpoint it had at the start. */
  ghost predicate Restored(n: nat, run: seq<Step>, from: nat, start: map<RoomId, nat>, visited: seq<RoomId>, refuses: set<RoomId>) {
    forall r :: r in visited && r !in refuses ==> Reached(n, run, from, r, Get(start, r))
  }

  lemma RestoredStays(n: nat, run: seq<Step>, longer: seq<Step>, from: nat, start: map<RoomId, nat>, visited: seq<RoomId>,
                      refuses: set<RoomId>)
    requires Run(n, longer).Some? && run <= longer && Restored(n, run, from, start, visited, refuses)
    ensures Restored(n, longer, from, start, visited, refuses)
  {
    forall r | r in visited && r !in refuses ensures Reached(n, longer, from, r, Get(start, r)) {
      ReachedStays(n, run, longer, from, r, Get(start, r));
    }
  }

  lemma RestoredAppend(n: nat, run: seq<Step>, from: nat, start: map<RoomId, nat>, visited: seq<RoomId>, room: RoomId,
                       refuses: set<RoomId>)
    requires Restored(n, run, from, start, visited, refuses)
    requires room !in refuses ==> Reached(n, run, from, room, Get(start, room))
    ensures Restored(n, run, from, start, visited + [room], refuses)
  {
  }

  /** What others did since has not taken a checkpoint back. */
  lemma RunGrows(n: nat, run: seq<Step>, longer: seq<Step>)
    requires Run(n, longer).Some? && run <= longer
    ensures Run(n, run).Some? && Grown(Run(n, run).value, Run(n, longer).value)
  {
    SameAt(n, run, longer, |run|);
    LaterGrows(n, longer, |run|, |longer|);
    LastState(n, run);
    LastState(n, longer);
  }

  // ----- the snapshotter -----

  class Snapshotter {
    const store: Store

    constructor (store: Store)
      ensures this.store == store
    {
      this.store := store;
    }

    /** INSERT ... ON DUPLICATE KEY UPDATE like_count=GREATEST(...) of a total read before. */
    method Save(job: nat)
      requires store.Valid() && Likes.Open(store.st, job, ToSave)
      modifies store
      ensures store.Valid() && store.run == old(store.run) + [SaveTotal(job)]
      ensures var j := old(store.st.jobs[job]);
        store.st.checkpoints == old(store.st.checkpoints)[j.room := Max(Get(old(store.st.checkpoints), j.room), j.count)]
      ensures store.st.totals == old(store.st.totals) && store.st.deltas == old(store.st.deltas)
    {
      store.Do(SaveTotal(job));
    }

    /** The Lua script raises the total to the checkpoint and never lowers it. */
    method RestoreLikeSnapshot(job: nat)
      requires store.Valid() && Likes.Open(store.st, job, ToRestore)
      modifies store
      ensures store.Valid() && store.run == old(store.run) + [RestoreTotal(job)]
      ensures var j := old(store.st.jobs[job]);
        forall r :: Get(store.st.totals, r) ==
          if r == j.room then Max(Get(old(store.st.totals), r), j.count) else Get(old(store.st.totals), r)
      ensures store.st.checkpoints == old(store.st.checkpoints) && store.st.deltas == old(store.st.deltas)
      ensures store.st.jobs == old(store.st.jobs)[job := old(store.st.jobs[job]).(open := false)]
    {
      store.Do(RestoreTotal(job));
    }

    /** The page of the query at this moment; a statement is prepared for each of its rows. */
    method LoadAfter(after: nat, limit: nat) returns (page: seq<Checkpoint>, base: nat)
      requires store.Valid() && limit > 0
      modifies store
      ensures store.Valid() && store.run == old(store.run) + [LoadPage(Rooms(page))]
      ensures store.st.checkpoints == old(store.st.checkpoints) && IsPage(store.st.checkpoints, page, after, limit)
      ensures base == |old(store.st.jobs)| && |store.st.jobs| == base + |page|
      ensures forall i :: 0 <= i < |page| ==> store.st.jobs[base + i] == Job(ToRestore, page[i].room, page[i].count, true)
    {
      var table := store.st.checkpoints;
      base := |store.st.jobs|;
      page := SmallestRooms(table, after, limit);
      store.Do(LoadPage(Rooms(page)));
    }

    static method SmallestRooms(table: map<RoomId, nat>, after: nat, limit: nat) returns (page: seq<Checkpoint>)
      ensures IsPage(table, page, after, limit)
    {
      var s: set<nat> := set r | r in table && r > after;
      var ids := SmallestFirst(s, limit);
      assert forall i :: 0 <= i < |ids| ==> ids[i] in s;
      page := seq(|ids|, i requires 0 <= i < |ids| => Checkpoint(ids[i], table[ids[i]]));
      forall r | r in table && r > after && (|page| < limit || (page != [] && r <= page[|page| - 1].room))
        ensures r in Rooms(page) {
        assert r in s;
        var i :| 0 <= i < |ids| && ids[i] == r;
        assert Rooms(page)[i] == r;
      }
    }

    /** One restore; a refused one may execute now, later or never. */
    method RestoreOne(job: nat, ghost end: nat, room: RoomId, refused: bool, ghost from: nat, ghost least: nat)
      requires store.Valid() && job < end <= |store.st.jobs| && from <= |store.run|
      requires Likes.Open(store.st, job, ToRestore) && store.st.jobs[job].room == room && store.st.jobs[job].count >= least
      modifies store
      ensures store.Valid() && old(store.run) <= store.run && end <= |store.st.jobs|
      ensures forall i :: job < i < end ==> store.st.jobs[i] == old(store.st.jobs[i])
      ensures !refused ==> Reached(store.aggregators, store.run, from, room, least)
    {
      hide Run, Raised, Apply;
      store.Wait(job, end);
      if !refused {
        RestoreLikeSnapshot(job);
        LastState(store.aggregators, store.run);
        assert Get(At(store.aggregators, store.run, |store.run|).totals, room) >= least;
      }
    }

    /** Restores one page, going on past refusals. */
    method RestorePage(page: seq<Checkpoint>, base: nat, refuses: set<RoomId>, ghost before: seq<RoomId>,
                       failed: seq<RoomId>, ghost from: nat, ghost start: map<RoomId, nat>)
      returns (errors: seq<RoomId>)
      requires store.Valid() && base + |page| <= |store.st.jobs| && from <= |store.run|
      requires forall i :: 0 <= i < |page| ==> store.st.jobs[base + i] == Job(ToRestore, page[i].room, page[i].count, true)
      requires forall i :: 0 <= i < |page| ==> page[i].count >= Get(start, page[i].room)
      requires failed == Refused(before, refuses)
      requires Restored(store.aggregators, store.run, from, start, before, refuses)
      modifies store
      ensures store.Valid() && old(store.run) <= store.run
      ensures errors == Refused(before + Rooms(page), refuses)
      ensures Restored(store.aggregators, store.run, from, start, before + Rooms(page), refuses)
    {
      hide Run, Reached, Restored, Refused;
      errors := failed;
      var i := 0;
      ghost var visited := before;
      while i < |page|
        invariant 0 <= i <= |page| && visited == before + Rooms(page)[..i]
        invariant store.Valid() && old(store.run) <= store.run && base + |page| <= |store.st.jobs|
        invariant forall k :: i <= k < |page| ==> store.st.jobs[base + k] == Job(ToRestore, page[k].room, page[k].count, true)
        invariant errors == Refused(visited, refuses)
        invariant Restored(store.aggregators, store.run, from, start, visited, refuses)
      {
        var room := page[i].room;
        ghost var earlier := store.run;
        RestoreOne(base + i, base + |page|, room, room in refuses, from, Get(start, room));
        RestoredStays(store.aggregators, earlier, store.run, from, start, visited, refuses);
        RestoredAppend(store.aggregators, store.run, from, start, visited, room, refuses);
        if room in refuses { errors := errors + [room]; }
        RefusedAppend(visited, room, refuses);
        visited := visited + [room];
        i := i + 1;
      }
      assert Rooms(page)[..i] == Rooms(page);
    }

    /**
     Recover visits rooms with a positive id in ascending order, each once, past refused rooms, and reports exactly
     the refused ones, whatever the batch size. Unless a page cannot be read, it visits every checkpoint there was
     at the start, and every visited room that is not refused has its total raised to that checkpoint.
     */
    method Recover(configured: int, refuses: set<RoomId>, unreadable: int)
      returns (failed: seq<RoomId>, loadFailed: bool, ghost visited: seq<RoomId>)
      requires store.Valid()
      modifies store
      ensures store.Valid() && old(store.run) <= store.run
      ensures forall i, j :: 0 <= i < j < |visited| ==> visited[i] < visited[j]
      ensures forall r :: r in visited ==> r in store.st.checkpoints && r > 0
      ensures !loadFailed ==> forall r :: r in old(store.st.checkpoints) && r > 0 ==> r in visited
      ensures failed == Refused(visited, refuses)
      ensures Restored(store.aggregators, store.run, |old(store.run)|, old(store.st.checkpoints), visited, refuses)
      ensures unreadable < 0 ==> !loadFailed
    {
      hide Run, Restored, Visited, IsPage;
      var batch := if configured <= 0 then 1000 else configured;
      failed, visited, loadFailed := [], [], false;
      ghost var start, from := store.st.checkpoints, |store.run|;
      NothingVisited(start, store.aggregators, store.run);
      var cursor: nat, pages: nat, more := 0, 0, true;
      while more
        invariant store.Valid() && old(store.run) <= store.run && cursor <= MAX_INT64
        invariant CheckpointsGrown(start, store.st.checkpoints)
        invariant Visited(start, store.st.checkpoints, visited, cursor)
        invariant !more ==> forall r :: r in start && r > 0 ==> r in visited
        invariant failed == Refused(visited, refuses)
        invariant Restored(store.aggregators, store.run, from, start, visited, refuses)
        decreases more, MAX_INT64 - cursor
      {
        if pages == unreadable {
          VisitedFacts(start, store.st.checkpoints, visited, cursor);
          return failed, true, visited;
        }
        var full, last;
        failed, full, last, visited := NextPage(cursor, batch, refuses, visited, failed, from, start);
        pages := pages + 1;
        more, cursor := full, last;
      }
      VisitedFacts(start, store.st.checkpoints, visited, cursor);
    }

    /** The body of Recover's loop. */
    method NextPage(cursor: nat, batch: nat, refuses: set<RoomId>, ghost visited: seq<RoomId>, failed: seq<RoomId>,
                    ghost from: nat, ghost start: map<RoomId, nat>)
      returns (errors: seq<RoomId>, full: bool, last: nat, ghost all: seq<RoomId>)
      requires store.Valid() && batch > 0 && cursor <= MAX_INT64 && from <= |store.run|
      requires CheckpointsGrown(start, store.st.checkpoints) && Visited(start, store.st.checkpoints, visited, cursor)
      requires failed == Refused(visited, refuses)
      requires Restored(store.aggregators, store.run, from, start, visited, refuses)
      modifies store
      ensures store.Valid() && old(store.run) <= store.run
      ensures cursor <= last <= MAX_INT64 && (full ==> cursor < last)
      ensures CheckpointsGrown(start, store.st.checkpoints) && Visited(start, store.st.checkpoints, all, last)
      ensures !full ==> forall r :: r in start && r > 0 ==> r in all
      ensures errors == Refused(all, refuses) && Restored(store.aggregators, store.run, from, start, all, refuses)
    {
      hide Run, Restored, Visited, IsPage;
      ghost var before, was := store.run, store.st.checkpoints;
      store.Wait(0, 0);
      RunGrows(store.aggregators, before, store.run);
      VisitedStays(start, was, store.st.checkpoints, visited, cursor);
      ghost var table := store.st.checkpoints;
      var page, base := LoadAfter(cursor, batch);
      PageCovers(start, table, visited, cursor, page, batch);
      PageIsLater(start, table, page, cursor, batch);
      ghost var loaded := store.run;
      RestoredStays(store.aggregators, before, loaded, from, start, visited, refuses);
      errors := RestorePage(page, base, refuses, visited, failed, from, start);
      RunGrows(store.aggregators, loaded, store.run);
      all, full := visited + Rooms(page), |page| >= batch;
      last := if page == [] then cursor else page[|page| - 1].room;
      assert page == [] ==> all == visited;
      VisitedStays(start, table, store.st.checkpoints, all, last);
    }

    /** One round of checkpoints of the active rooms; a room that cannot be read or written is skipped. */
    method Tick(rooms: seq<RoomId>, unreadable: set<RoomId>, unwritable: set<RoomId>) returns (failed: seq<RoomId>)
      requires store.Valid()
      modifies store
      ensures store.Valid() && old(store.run) <= store.run
      ensures forall r :: r in rooms && r !in unreadable && r !in unwritable ==>
        Checkpointed(store.aggregators, store.run, |old(store.run)|, r)
      ensures failed == Refused(rooms, unreadable + unwritable)
    {
      hide Run, Checkpointed;
      failed := [];
      var i := 0;
      while i < |rooms|
        invariant 0 <= i <= |rooms| && store.Valid() && old(store.run) <= store.run
        invariant forall k :: 0 <= k < i && rooms[k] !in unreadable && rooms[k] !in unwritable ==>
          Checkpointed(store.aggregators, store.run, |old(store.run)|, rooms[k])
        invariant failed == Refused(rooms[..i], unreadable + unwritable)
      {
        var room := rooms[i];
        ghost var before := store.run;
        TickRoom(room, room in unreadable, room in unwritable, |old(store.run)|);
        forall k | 0 <= k < i && rooms[k] !in unreadable && rooms[k] !in unwritable
          ensures Checkpointed(store.aggregators, store.run, |old(store.run)|, rooms[k]) {
          CheckpointedStays(store.aggregators, before, store.run, |old(store.run)|, rooms[k]);
        }
        RefusedAppend(rooms[..i], room, unreadable + unwritable);
        assert rooms[..i + 1] == rooms[..i] + [room];
        if room in unreadable || room in unwritable { failed := failed + [room]; }
        i := i + 1;
      }
      assert rooms[..i] == rooms;
    }

    /** One room of Tick: a Save that failed may execute now, later or never. */
    method TickRoom(room: RoomId, unreadable: bool, unwritable: bool, ghost from: nat)
      requires store.Valid() && from <= |store.run|
      modifies store
      ensures store.Valid() && old(store.run) <= store.run
      ensures !unreadable && !unwritable ==> Checkpointed(store.aggregators, store.run, from, room)
    {
      hide Run, Saved;
      store.Wait(0, 0);
      if unreadable { return; }
      ghost var prefix, i := store.run, |store.run|;
      var job := |store.st.jobs|;
      store.Do(ReadTotal(room));
      store.Wait(job, job + 1);
      if unwritable { return; }
      Save(job);
      LastState(store.aggregators, prefix);
      SameAt(store.aggregators, prefix, store.run, i);
      assert SavedBy(store.aggregators, store.run, i, |store.run| - 1, room);
    }
  }

  lemma NothingVisited(start: map<RoomId, nat>, n: nat, run: seq<Step>)
    ensures Visited(start, start, [], 0) && CheckpointsGrown(start, start)
    ensures forall refuses :: Restored(n, run, |run|, start, [], refuses)
  {
  }

  lemma VisitedFacts(start: map<RoomId, nat>, table: map<RoomId, nat>, visited: seq<RoomId>, cursor: nat)
    requires Visited(start, table, visited, cursor)
    ensures forall i, j :: 0 <= i < j < |visited| ==> visited[i] < visited[j]
    ensures forall r :: r in visited ==> r in table && r > 0
  {
  }

  lemma VisitedStays(start: map<RoomId, nat>, table: map<RoomId, nat>, later: map<RoomId, nat>, visited: seq<RoomId>, cursor: nat)
    requires CheckpointsGrown(start, table) && CheckpointsGrown(table, later) && Visited(start, table, visited, cursor)
    ensures CheckpointsGrown(start, later) && Visited(start, later, visited, cursor)
  {
  }

  /** A page's counts are at least the checkpoints there were at the start. */
  lemma PageIsLater(start: map<RoomId, nat>, table: map<RoomId, nat>, page: seq<Checkpoint>, cursor: nat, limit: nat)
    requires CheckpointsGrown(start, table) && IsPage(table, page, cursor, limit)
    ensures forall i :: 0 <= i < |page| ==> page[i].count >= Get(start, page[i].room) && page[i].room > cursor
  {
  }

  /**
   What Recover gives a room whose checkpoint it restored, if Redis has not lost the total since Recover began: it
   misses at most the likes accepted since any checkpoint saved before was read, and those missing at that read.
   */
  lemma RecoveredRoom(n: nat, run: seq<Step>, i: nat, j: nat, from: nat, visited: seq<RoomId>, refuses: set<RoomId>, r: RoomId)
    requires SavedBy(n, run, i, j, r) && j < from <= |run| && KeepsTotal(run, from, |run|, r)
    requires Restored(n, run, from, At(n, run, from).checkpoints, visited, refuses) && r in visited && r !in refuses
    ensures var s, t := At(n, run, i), Run(n, run).value;
      && 0 <= Missing(t, r) <= Missing(s, r) + (Get(t.accepted, r) - Get(s.accepted, r))
      && (KeepsTotal(run, 0, i, r) ==> Missing(t, r) <= Get(t.accepted, r) - Get(s.accepted, r))
  {
    var l :| from <= l <= |run| && Get(At(n, run, l).totals, r) >= Get(At(n, run, from).checkpoints, r);
    RecoveryBound(n, run, i, j, from, l, r);
  }
}
