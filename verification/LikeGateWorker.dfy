/**
 like.Service.Add and room.Service.Start, Stop, Ban and Unban as code. Each statement is one step of the system of
 module LikeGate, taken after any number of steps of other calls; every statement may fail.
 */
module LikeGateWorker {
  import opened Basics
  import opened LikeGate
  import opened LikeGateSafety

  datatype Cause =
    | InvalidCount | CallFailed | NotFound | NotLiving | IsBanned | RateLimited
    | Forbidden | InvalidState | SelfModeration | UserNotFound | InvalidInput

  datatype Result = Accepted(count: nat) | Failed(cause: Cause)

  const MAX_REASON: nat := 255

  class Server {
    const cfg: Config
    var st: State
    ghost var run: seq<Step>

    constructor (cfg: Config)
      ensures Valid() && this.cfg == cfg && st == Init()
    {
      this.cfg, st, run := cfg, Init(), [];
    }

    ghost predicate Valid()
      reads this
    {
      Run(cfg, run) == Some(st)
    }

    /** The call `pid` is where its code says it is. */
    ghost predicate At(pid: Pid, c: Call)
      reads this
    {
      Valid() && pid in st.calls && st.calls[pid] == c
    }

    method Do(step: Step)
      requires Valid() && Enabled(st, step)
      modifies this
      ensures Valid() && run == old(run) + [step] && st == Apply(cfg, old(st), step)
    {
      assert (run + [step])[..|run|] == run;
      st, run := Apply(cfg, st, step), run + [step];
    }

    /** Whatever the other calls do before pid's next statement. */
    method Others(pid: Pid)
      requires Valid()
      modifies this
      ensures Valid() && old(run) <= run
      ensures pid in st.calls <==> pid in old(st.calls)
      ensures pid in st.calls ==> st.calls[pid] == old(st.calls[pid])
    {
    }
  }

  /** The most recent like in the counters is this one, by a call begun at `since` or later. */
  ghost predicate LastLike(s: State, room: RoomId, user: UserId, count: nat, since: Time) {
    s.likes != [] &&
    var l := s.likes[|s.likes| - 1];
    l.room == room && l.user == user && l.count == count && since <= l.started <= l.at
  }

  /** The call has only moved to another phase. */
  ghost predicate Moved(s: State, pid: Pid, c: Call) {
    pid in s.calls && s.calls[pid] == c.(phase := s.calls[pid].phase) && c.started <= s.now
  }

  /** MySQL showed the room in another state to a lookup that is fresh enough for a call begun at this instant. */
  ghost predicate ClosedAt(cfg: Config, s: State, room: RoomId, started: Time) {
    exists r, status :: status != Living && RoomReading(cfg, s.past, s.fills, room, status, r, started)
  }

  /** MySQL showed the ban to a lookup that is fresh enough for a call begun at this instant. */
  ghost predicate BannedAt(cfg: Config, s: State, key: (RoomId, UserId), started: Time) {
    exists r :: BanReading(cfg, s.past, s.fills, key, true, r, started)
  }

  /** A call's own statement of the invariant. */
  lemma CallFacts(cfg: Config, run: seq<Step>, s: State, pid: Pid)
    requires Run(cfg, run) == Some(s) && pid in s.calls
    ensures CallOk(cfg, s.past, s.now, s.calls[pid], s.fills, s.enforced)
  {
    RunKeepsInv(cfg, run);
  }

  /** internal/like/service.go: one call, identified by `pid`. */
  class LikeService {
    const server: Server
    const pid: Pid

    constructor (server: Server, pid: Pid)
      ensures this.server == server && this.pid == pid
    {
      this.server, this.pid := server, pid;
    }

    method Fail(cause: Cause) returns (r: Result)
      requires server.Valid() && pid in server.st.calls
      modifies server
      ensures server.Valid() && old(server.run) <= server.run && r == Failed(cause) && pid !in server.st.calls
      ensures old(server.st.past) <= server.st.past && old(server.st.enforced) <= server.st.enforced
      ensures old(server.st.fills) <= server.st.fills && server.st.world == old(server.st.world)
    {
      server.Do(End(pid));
      r := Failed(cause);
    }

    /**
     Accepted only with a like of the right room, user and size in the counters; a bad count does nothing. When all
     calls work, a like is refused only for a reason: no such room, not LIVING, banned, or the limiter.
     */
    method Add(room: RoomId, user: UserId, count: int, works: bool, refuses: bool) returns (r: Result)
      requires server.Valid() && pid !in server.st.calls
      modifies server
      ensures server.Valid() && old(server.run) <= server.run && pid !in server.st.calls
      ensures r == Failed(InvalidCount) <==> !(1 <= count <= 100)
      ensures r == Failed(InvalidCount) ==> server.run == old(server.run)
      ensures r.Accepted? ==> r.count == count && LastLike(server.st, room, user, count, old(server.st.now))
      ensures r == Failed(NotLiving) ==> ClosedAt(server.cfg, server.st, room, old(server.st.now))
      ensures r == Failed(IsBanned) ==>
        (room, user) in server.st.enforced || BannedAt(server.cfg, server.st, (room, user), old(server.st.now))
      ensures r.Failed? ==> r.cause in {InvalidCount, CallFailed, NotLiving, IsBanned, RateLimited}
      ensures r == Failed(RateLimited) ==> refuses
      ensures works && r == Failed(CallFailed) ==> room !in server.st.world.rooms
    {
      if count < 1 || count > 100 { return Failed(InvalidCount); }
      hide Run, RoomReading, BanReading;
      ghost var c0 := Call(room, user, count, server.st.now, Asked);
      server.Do(Begin(pid, room, user, count));
      var status := RoomStatus(c0, works);
      if status.None? {
        r := Fail(CallFailed);
        return;
      }
      CallFacts(server.cfg, server.run, server.st, pid);
      if status.value != Living {
        r := TurnAway(c0, status.value);
        return;
      }
      ghost var from := server.st.calls[pid].phase.from;
      var banned := BanCheck(c0.(phase := StatusKnown(Living, from)), works);
      if banned.None? {
        r := Fail(CallFailed);
        return;
      }
      if banned.value {
        r := Refuse(c0);
        return;
      }
      r := Conclude(c0, count, works, refuses);
    }

    /** The answer in a room that is not LIVING. */
    method TurnAway(ghost c0: Call, ghost status: Status) returns (r: Result)
      requires server.Valid() && Moved(server.st, pid, c0) && status != Living
      requires server.st.calls[pid].phase.StatusKnown? && server.st.calls[pid].phase.status == status
      modifies server
      ensures server.Valid() && old(server.run) <= server.run && r == Failed(NotLiving) && pid !in server.st.calls
      ensures ClosedAt(server.cfg, server.st, c0.room, c0.started)
    {
      hide Run, BanReading, RoomReading;
      CallFacts(server.cfg, server.run, server.st, pid);
      ghost var known, past, fills := server.st.calls[pid].phase.from, server.st.past, server.st.fills;
      r := Fail(NotLiving);
      RoomReadingCarries(server.cfg, past, server.st.past, fills, server.st.fills, c0.room, status, known, c0.started);
    }

    /** The answer to a banned user. */
    method Refuse(ghost c0: Call) returns (r: Result)
      requires server.Valid() && Moved(server.st, pid, c0)
      requires server.st.calls[pid].phase.BanKnown? && server.st.calls[pid].phase.banned
      modifies server
      ensures server.Valid() && old(server.run) <= server.run && r == Failed(IsBanned) && pid !in server.st.calls
      ensures (c0.room, c0.user) in server.st.enforced || BannedAt(server.cfg, server.st, (c0.room, c0.user), c0.started)
    {
      hide Run, BanReading, RoomReading;
      CallFacts(server.cfg, server.run, server.st, pid);
      ghost var key, known := (c0.room, c0.user), server.st.calls[pid].phase.from;
      ghost var past, fills := server.st.past, server.st.fills;
      r := Fail(IsBanned);
      if BanReading(server.cfg, past, fills, key, true, known, c0.started) {
        BanReadingCarries(server.cfg, past, server.st.past, fills, server.st.fills, key, true, known, c0.started);
      }
    }

    /** The limiter and AddLikes, for a call that passed both checks. */
    method Conclude(ghost c0: Call, count: nat, works: bool, refuses: bool) returns (r: Result)
      requires server.Valid() && Moved(server.st, pid, c0) && c0.count == count
      requires server.st.calls[pid].phase.BanKnown? && !server.st.calls[pid].phase.banned
      modifies server
      ensures server.Valid() && old(server.run) <= server.run && pid !in server.st.calls
      ensures r.Failed? ==> (r.cause == CallFailed && !works) || (r.cause == RateLimited && refuses)
      ensures r.Accepted? ==> r.count == count && LastLike(server.st, c0.room, c0.user, count, c0.started)
    {
      server.Others(pid);
      var limiterFailed: bool := *;
      if !works && limiterFailed {
        r := Fail(CallFailed);
        return;
      }
      if refuses {
        r := Fail(RateLimited);
        return;
      }
      server.Do(Limit(pid));
      server.Others(pid);
      var applied: bool, replied: bool := *, *;
      if !works && !applied {
        r := Fail(CallFailed);
        return;
      }
      CallFacts(server.cfg, server.run, server.st, pid);
      server.Do(AddLikes(pid));
      r := if works || replied then Accepted(count) else Failed(CallFailed);
    }

    /** The cached status if there is one, else MySQL's, which is then cached. */
    method RoomStatus(ghost c0: Call, works: bool) returns (status: Option<Status>)
      requires server.At(pid, c0) && c0.phase == Asked
      modifies server
      ensures server.Valid() && old(server.run) <= server.run && Moved(server.st, pid, c0)
      ensures status.Some? ==> server.st.calls[pid].phase.StatusKnown? && server.st.calls[pid].phase.status == status.value
      ensures works && status.None? ==> server.st.calls[pid].room !in server.st.world.rooms
    {
      server.Others(pid);
      CallFacts(server.cfg, server.run, server.st, pid);
      var cacheFailed: bool := *;
      if !works && cacheFailed { return None; }
      server.Do(LookStatus(pid));
      if server.st.calls[pid].phase.StatusKnown? { return Some(server.st.calls[pid].phase.status); }
      status := LoadStatus(c0.(phase := StatusMissed), works);
    }

    method LoadStatus(ghost c: Call, works: bool) returns (status: Option<Status>)
      requires server.At(pid, c) && c.phase == StatusMissed
      modifies server
      ensures server.Valid() && old(server.run) <= server.run && Moved(server.st, pid, c)
      ensures status.Some? ==> server.st.calls[pid].phase.StatusKnown? && server.st.calls[pid].phase.status == status.value
      ensures works && status.None? ==> server.st.calls[pid].room !in server.st.world.rooms
    {
      server.Others(pid);
      CallFacts(server.cfg, server.run, server.st, pid);
      var queryFailed: bool, stored: bool := *, *;
      if (!works && queryFailed) || server.st.calls[pid].room !in server.st.world.rooms { return None; }
      server.Do(ReadStatus(pid));
      server.Others(pid);
      CallFacts(server.cfg, server.run, server.st, pid);
      server.Do(FillStatus(pid, stored));
      status := Some(server.st.calls[pid].phase.status);
    }

    method BanCheck(ghost c: Call, works: bool) returns (banned: Option<bool>)
      requires server.At(pid, c) && c.phase.StatusKnown? && c.phase.status == Living
      modifies server
      ensures server.Valid() && old(server.run) <= server.run && Moved(server.st, pid, c)
      ensures banned.Some? ==> server.st.calls[pid].phase.BanKnown? && server.st.calls[pid].phase.banned == banned.value
      ensures works ==> banned.Some?
    {
      server.Others(pid);
      CallFacts(server.cfg, server.run, server.st, pid);
      var cacheFailed: bool := *;
      if !works && cacheFailed { return None; }
      server.Do(LookBan(pid));
      if server.st.calls[pid].phase.BanKnown? { return Some(server.st.calls[pid].phase.banned); }
      banned := LoadBan(server.st.calls[pid], works);
    }

    method LoadBan(ghost c: Call, works: bool) returns (banned: Option<bool>)
      requires server.At(pid, c) && c.phase.BanMissed?
      modifies server
      ensures server.Valid() && old(server.run) <= server.run && Moved(server.st, pid, c)
      ensures banned.Some? ==> server.st.calls[pid].phase.BanKnown? && server.st.calls[pid].phase.banned == banned.value
      ensures works ==> banned.Some?
    {
      server.Others(pid);
      CallFacts(server.cfg, server.run, server.st, pid);
      var queryFailed: bool, stored: bool := *, *;
      if !works && queryFailed { return None; }
      server.Do(ReadBan(pid));
      server.Others(pid);
      CallFacts(server.cfg, server.run, server.st, pid);
      server.Do(FillBan(pid, stored));
      banned := Some(server.st.calls[pid].phase.banned);
    }
  }

  /** The room row was this at some step since the history had length `from`. */
  ghost predicate WasIn(past: seq<Seen>, from: nat, id: RoomId, room: Room) {
    exists k :: from <= k < |past| && id in past[k].world.rooms && past[k].world.rooms[id] == room
  }

  lemma WasInGrows(past: seq<Seen>, more: seq<Seen>, from: nat, earlier: nat, id: RoomId, room: Room)
    requires WasIn(past, from, id, room) && past <= more && earlier <= from
    ensures WasIn(more, earlier, id, room)
  {
    var k :| from <= k < |past| && id in past[k].world.rooms && past[k].world.rooms[id] == room;
    assert more[k] == past[k];
  }

  /** internal/room/service.go over internal/room/repository.go. */
  class RoomService {
    const server: Server

    constructor (server: Server)
      ensures this.server == server
    {
      this.server := server;
    }

    /** Other calls between two statements. */
    method Wait()
      requires server.Valid()
      modifies server
      ensures server.Valid() && old(server.run) <= server.run && Forward(old(server.st.world), server.st.world)
      ensures old(server.st.past) <= server.st.past
    {
    }

    /** The room row, or the error of the lookup. */
    method ByID(id: RoomId, works: bool) returns (room: Option<Room>, cause: Cause)
      requires server.Valid()
      modifies server
      ensures server.Valid() && old(server.run) <= server.run && old(server.st.past) <= server.st.past
      ensures room.Some? ==> id in server.st.world.rooms && server.st.world.rooms[id] == room.value
      ensures cause == NotFound || (cause == CallFailed && (works ==> room.Some?))
      ensures room.None? && cause == NotFound ==> id !in server.st.world.rooms
    {
      Wait();
      var broken: bool := *;
      if !works && broken { return None, CallFailed; }
      if id !in server.st.world.rooms { return None, NotFound; }
      return Some(server.st.world.rooms[id]), CallFailed;
    }

    /** The compare-and-set of the status; a reply may be lost after the update ran. */
    method Change(id: RoomId, actor: UserId, from: Status, to: Status, works: bool) returns (err: Option<Cause>)
      requires server.Valid() && id in server.st.world.rooms
      requires (from == Preparing && to == Living) || (from == Living && to == Closed)
      modifies server
      ensures server.Valid() && old(server.run) <= server.run && Forward(old(server.st.world), server.st.world)
      ensures err.None? ==> server.st.world.rooms[id] == Room(actor, to)
      ensures err.None? ==> WasIn(server.st.past, |old(server.st.past)|, id, Room(actor, from))
      ensures err == Some(InvalidState) ==> server.st.world.rooms[id] != Room(actor, from)
      ensures err.Some? ==> (err.value == CallFailed && !works) || err.value == InvalidState
    {
      Wait();
      var executed: bool, replied: bool := *, *;
      if !works && !executed { return Some(CallFailed); }
      ghost var before := server.st.world;
      var matched := server.st.world.rooms[id] == Room(actor, from);
      server.Do(ChangeStatus(id, actor, from, to));
      assert Forward(before, server.st.world);
      assert server.st.past[|server.st.past| - 1].world == before;
      if !works && !replied { return Some(CallFailed); }
      return if matched then None else Some(InvalidState);
    }

    /** PREPARING to LIVING, by the anchor only. */
    method Start(id: RoomId, actor: UserId, works: bool) returns (err: Option<Cause>)
      requires server.Valid()
      modifies server
      ensures server.Valid() && old(server.run) <= server.run
      ensures err.None? ==> id in server.st.world.rooms && server.st.world.rooms[id].anchor == actor
      ensures err.None? ==> server.st.world.rooms[id].status != Preparing
      ensures err.None? ==> WasIn(server.st.past, |old(server.st.past)|, id, Room(actor, Preparing))
      ensures err == Some(Forbidden) ==> id in server.st.world.rooms && server.st.world.rooms[id].anchor != actor
      ensures err == Some(InvalidState) ==> id in server.st.world.rooms && server.st.world.rooms[id].status != Preparing
      ensures err == Some(NotFound) ==> id !in server.st.world.rooms
      ensures err.Some? ==> err.value in {NotFound, Forbidden, InvalidState} || (err.value == CallFailed && !works)
    {
      var room, cause := ByID(id, works);
      if room.None? { return Some(cause); }
      if room.value.anchor != actor { return Some(Forbidden); }
      ghost var mid := |server.st.past|;
      err := Change(id, actor, Preparing, Living, works);
      if err.None? {
        ghost var past := server.st.past;
        err := Reload(id, works);
        WasInGrows(past, server.st.past, mid, |old(server.st.past)|, id, Room(actor, Preparing));
      }
    }

    /** LIVING to CLOSED, by the anchor only; CLOSED is final. */
    method Stop(id: RoomId, actor: UserId, works: bool) returns (err: Option<Cause>)
      requires server.Valid()
      modifies server
      ensures server.Valid() && old(server.run) <= server.run
      ensures err.None? ==> id in server.st.world.rooms && server.st.world.rooms[id] == Room(actor, Closed)
      ensures err.None? ==> WasIn(server.st.past, |old(server.st.past)|, id, Room(actor, Living))
      ensures err == Some(Forbidden) ==> id in server.st.world.rooms && server.st.world.rooms[id].anchor != actor
      ensures err == Some(InvalidState) ==> id in server.st.world.rooms && server.st.world.rooms[id].status != Living
      ensures err == Some(NotFound) ==> id !in server.st.world.rooms
      ensures err.Some? ==> err.value in {NotFound, Forbidden, InvalidState} || (err.value == CallFailed && !works)
    {
      var room, cause := ByID(id, works);
      if room.None? { return Some(cause); }
      if room.value.anchor != actor { return Some(Forbidden); }
      ghost var mid := |server.st.past|;
      err := Change(id, actor, Living, Closed, works);
      if err.None? {
        ghost var past := server.st.past;
        err := Reload(id, works);
        WasInGrows(past, server.st.past, mid, |old(server.st.past)|, id, Room(actor, Living));
      }
    }

    /** The Get that Start and Stop end with. */
    method Reload(id: RoomId, works: bool) returns (err: Option<Cause>)
      requires server.Valid() && id in server.st.world.rooms
      modifies server
      ensures server.Valid() && old(server.run) <= server.run && Forward(old(server.st.world), server.st.world)
      ensures err.Some? ==> err.value == CallFailed && !works
      ensures old(server.st.past) <= server.st.past
    {
      Wait();
      var broken: bool := *;
      return if !works && broken then Some(CallFailed) else None;
    }

    method RequireAnchor(room: RoomId, actor: UserId, works: bool) returns (err: Option<Cause>)
      requires server.Valid()
      modifies server
      ensures server.Valid() && old(server.run) <= server.run
      ensures err.None? ==> room in server.st.world.rooms && server.st.world.rooms[room].anchor == actor
      ensures err == Some(Forbidden) ==> room in server.st.world.rooms && server.st.world.rooms[room].anchor != actor
      ensures err.Some? ==> err.value == Forbidden || err.value == NotFound || (err.value == CallFailed && !works)
      ensures err == Some(NotFound) ==> room !in server.st.world.rooms
    {
      var found, cause := ByID(room, works);
      if found.None? { return Some(cause); }
      return if found.value.anchor != actor then Some(Forbidden) else None;
    }

    /** The target must exist in the user directory; the trimmed reason must be short. */
    method Ban(room: RoomId, actor: UserId, target: UserId, reason: string, trim: string -> string, known: bool, works: bool)
      returns (err: Option<Cause>)
      requires server.Valid()
      modifies server
      ensures server.Valid() && old(server.run) <= server.run
      ensures err.None? ==> (room, target) in server.st.world.bans && target != actor && |trim(reason)| <= MAX_REASON
      ensures err.None? ==> room in server.st.world.rooms && server.st.world.rooms[room].anchor == actor
      ensures err == Some(Forbidden) ==> room in server.st.world.rooms && server.st.world.rooms[room].anchor != actor
      ensures err == Some(SelfModeration) ==> target == actor
      ensures err == Some(InvalidInput) ==> |trim(reason)| > MAX_REASON
      ensures err == Some(UserNotFound) ==> !known
      ensures err == Some(NotFound) ==> room !in server.st.world.rooms
      ensures err.Some? ==>
        err.value in {NotFound, Forbidden, SelfModeration, UserNotFound, InvalidInput} || (err.value == CallFailed && !works)
    {
      err := RequireAnchor(room, actor, works);
      if err.Some? { return; }
      if target == actor { return Some(SelfModeration); }
      Wait();
      var broken: bool := *;
      if !works && broken { return Some(CallFailed); }
      if !known { return Some(UserNotFound); }
      if |trim(reason)| > MAX_REASON { return Some(InvalidInput); }
      Wait();
      var executed: bool, replied: bool := *, *;
      if !works && !executed { return Some(CallFailed); }
      server.Do(LikeGate.Ban(room, target));
      return if works || replied then None else Some(CallFailed);
    }

    method Unban(room: RoomId, actor: UserId, target: UserId, works: bool) returns (err: Option<Cause>)
      requires server.Valid()
      modifies server
      ensures server.Valid() && old(server.run) <= server.run
      ensures err.None? ==> (room, target) !in server.st.world.bans
      ensures err.None? ==> room in server.st.world.rooms && server.st.world.rooms[room].anchor == actor
      ensures err == Some(Forbidden) ==> room in server.st.world.rooms && server.st.world.rooms[room].anchor != actor
      ensures err == Some(NotFound) ==> room !in server.st.world.rooms
      ensures err.Some? ==> err.value in {NotFound, Forbidden} || (err.value == CallFailed && !works)
    {
      err := RequireAnchor(room, actor, works);
      if err.Some? { return; }
      Wait();
      var executed: bool, replied: bool := *, *;
      if !works && !executed { return Some(CallFailed); }
      server.Do(LikeGate.Unban(room, target));
      return if works || replied then None else Some(CallFailed);
    }
  }
}
