/** What the cached like gate guarantees of every run, and what EnforceLikeBan adds. */
module LikeGateSafety {
  import opened Basics
  import opened LikeGate

  lemma ReachableInv(cfg: Config, s: State)
    requires Reachable(cfg, s)
    ensures Inv(cfg, s)
  {
    var run :| Run(cfg, run) == Some(s);
    RunKeepsInv(cfg, run);
  }

  /**
   How stale a reading may be when a like arrives: the running time of the accepting call, and for a cached value
   the cache lifetime and the running time of the very call that filled that entry.
   */
  function Age(ttl: nat, s: State, l: Like, r: Reading): int {
    Slack(s.fills, ttl, r) + (l.at - l.started)
  }

  ghost predicate StatusExplains(cfg: Config, s: State, l: Like, r: Reading) {
    && ShowsStatus(s.past, r.mark, l.room, Living) && FillFor(s.past, s.fills, r, l.room, None)
    && l.at <= s.past[r.mark].at + Age(cfg.roomTTL, s, l, r)
  }

  ghost predicate BanExplains(cfg: Config, s: State, l: Like, r: Reading) {
    && ShowsBan(s.past, r.mark, (l.room, l.user), false) && FillFor(s.past, s.fills, r, l.room, Some(l.user))
    && l.at <= s.past[r.mark].at + Age(cfg.banTTL, s, l, r)
  }

  /** Behind every like stand a LIVING room and an unbanned user, both read from MySQL not too long before. */
  lemma LikesWereAllowed(cfg: Config, s: State, i: nat)
    requires Reachable(cfg, s) && i < |s.likes|
    ensures StatusExplains(cfg, s, s.likes[i], s.likes[i].status)
    ensures BanExplains(cfg, s, s.likes[i], s.likes[i].ban)
  {
    ReachableInv(cfg, s);
    assert LikeOk(cfg, s.past, s.likes[i], s.fills);
  }

  /** CLOSED is final, so a stopped room collects likes for at most the staleness bound. */
  lemma LikesEndAfterStop(cfg: Config, s: State, i: nat, z: nat)
    requires Reachable(cfg, s) && i < |s.likes| && ShowsStatus(s.past, z, s.likes[i].room, Closed)
    ensures s.likes[i].at <= s.past[z].at + Age(cfg.roomTTL, s, s.likes[i], s.likes[i].status)
  {
    ReachableInv(cfg, s);
    LikesWereAllowed(cfg, s, i);
    assert forall k :: z < k < |s.past| ==> Forward(s.past[z].world, s.past[k].world);
  }

  /** A user who has been banned since `z` likes for at most the staleness bound, with or without EnforceLikeBan. */
  lemma LikesEndAfterBan(cfg: Config, s: State, i: nat, z: nat)
    requires Reachable(cfg, s) && i < |s.likes| && z < |s.past|
    requires forall k :: z <= k < |s.past| ==> ShowsBan(s.past, k, (s.likes[i].room, s.likes[i].user), true)
    ensures s.likes[i].at <= s.past[z].at + Age(cfg.banTTL, s, s.likes[i], s.likes[i].ban)
  {
    ReachableInv(cfg, s);
    LikesWereAllowed(cfg, s, i);
    var l := s.likes[i];
    assert l.ban.mark >= z ==> ShowsBan(s.past, l.ban.mark, (l.room, l.user), true);
  }

  /** A fill caches the status the call has read, for exactly the configured lifetime. */
  lemma StatusLives(cfg: Config, s: State, pid: Pid, d: nat)
    requires Enabled(s, FillStatus(pid, true))
    ensures var room, t := s.calls[pid].room, Apply(cfg, Apply(cfg, s, FillStatus(pid, true)), Tick(d));
      && (cfg.roomTTL > 0 ==> (StatusCached(t, room) <==> d < cfg.roomTTL))
      && (d < cfg.roomTTL ==> t.statuses[room].value == s.calls[pid].phase.status)
      && (cfg.roomTTL == 0 ==> t.statuses == s.statuses)
  {
  }

  lemma BanLives(cfg: Config, s: State, pid: Pid, d: nat)
    requires Enabled(s, FillBan(pid, true))
    ensures var key, t := (s.calls[pid].room, s.calls[pid].user), Apply(cfg, Apply(cfg, s, FillBan(pid, true)), Tick(d));
      && (cfg.banTTL > 0 ==> (BanCached(t, key) <==> d < cfg.banTTL))
      && (d < cfg.banTTL ==> t.bans[key].value == s.calls[pid].phase.banned)
      && (cfg.banTTL == 0 ==> t.bans == s.bans)
  {
  }

  // ----- EnforceLikeBan -----

  /** A lookup that has read "not banned" and may still store it. */
  predicate Stale(c: Call, key: (RoomId, UserId)) {
    (c.room, c.user) == key && c.phase.BanRead? && !c.phase.banned
  }

  predicate HasStale(s: State, key: (RoomId, UserId)) {
    exists pid :: pid in s.calls && Stale(s.calls[pid], key)
  }

  /** The ban holds in MySQL, the cache does not contradict it and nobody is about to. */
  predicate Sealed(s: State, key: (RoomId, UserId)) {
    key in s.world.bans && (key in s.bans ==> s.bans[key].value) && !HasStale(s, key)
  }

  /** Calls that have already passed the ban check. */
  ghost function Passed(s: State, key: (RoomId, UserId)): set<Pid> {
    set pid | pid in s.calls && (s.calls[pid].room, s.calls[pid].user) == key &&
      (s.calls[pid].phase.Admitted? || (s.calls[pid].phase.BanKnown? && !s.calls[pid].phase.banned))
  }

  function LikesOf(likes: seq<Like>, key: (RoomId, UserId)): nat {
    if likes == [] then 0
    else
      var l := likes[|likes| - 1];
      LikesOf(likes[..|likes| - 1], key) + if (l.room, l.user) == key then 1 else 0
  }

  lemma StaleIsOld(cfg: Config, s: State, step: Step, key: (RoomId, UserId))
    requires Enabled(s, step) && Sealed(s, key) && step != Unban(key.0, key.1)
    ensures !HasStale(Apply(cfg, s, step), key)
  {
    var t := Apply(cfg, s, step);
    forall pid | pid in t.calls ensures !Stale(t.calls[pid], key) {
      if pid in s.calls { assert !Stale(s.calls[pid], key); }
    }
  }

  lemma PassedShrinks(cfg: Config, s: State, step: Step, key: (RoomId, UserId))
    requires Enabled(s, step) && Sealed(s, key)
    ensures Passed(Apply(cfg, s, step), key) <= Passed(s, key)
  {
    if step.FillBan? { assert !Stale(s.calls[step.pid], key); }
  }

  /** Until the ban is lifted, a sealed user stays sealed and no further call passes the ban check. */
  lemma SealedStays(cfg: Config, s: State, step: Step, key: (RoomId, UserId))
    requires Enabled(s, step) && Sealed(s, key) && step != Unban(key.0, key.1)
    ensures Sealed(Apply(cfg, s, step), key)
    ensures Passed(Apply(cfg, s, step), key) <= Passed(s, key)
  {
    hide Passed;
    PassedShrinks(cfg, s, step, key);
    StaleIsOld(cfg, s, step, key);
    if step.FillBan? { assert !Stale(s.calls[step.pid], key); }
  }

  /** Each further like of a sealed user uses up a call that had already passed. */
  lemma SealedLikes(cfg: Config, s: State, step: Step, key: (RoomId, UserId))
    requires Enabled(s, step) && Sealed(s, key) && step != Unban(key.0, key.1)
    ensures LikesOf(Apply(cfg, s, step).likes, key) + |Passed(Apply(cfg, s, step), key)|
         <= LikesOf(s.likes, key) + |Passed(s, key)|
  {
    hide Passed, Apply, Enabled, LikesOf;
    var t := Apply(cfg, s, step);
    SealedStays(cfg, s, step, key);
    SubsetSize(Passed(t, key), Passed(s, key));
    LikesGrow(cfg, s, step, key);
    if step.AddLikes? && LikesOf(t.likes, key) != LikesOf(s.likes, key) {
      SubsetSize(Passed(t, key), Passed(s, key) - {step.pid});
    }
  }

  /** A like uses up its call. */
  lemma LikesGrow(cfg: Config, s: State, step: Step, key: (RoomId, UserId))
    requires Enabled(s, step)
    ensures var t := Apply(cfg, s, step);
      LikesOf(t.likes, key) == LikesOf(s.likes, key) ||
      (step.AddLikes? && LikesOf(t.likes, key) == LikesOf(s.likes, key) + 1 &&
       step.pid in Passed(s, key) && step.pid !in Passed(t, key))
  {
    hide Changed, Looked, LookedBan, FilledStatus, FilledBan;
    var t := Apply(cfg, s, step);
    if step.AddLikes? { assert t.likes[..|s.likes|] == s.likes; } else { SameLikes(cfg, s, step); }
  }

  lemma SameLikes(cfg: Config, s: State, step: Step)
    requires Enabled(s, step) && !step.AddLikes?
    ensures Apply(cfg, s, step).likes == s.likes
  {
    hide Changed;
  }

  function Extend(cfg: Config, s: State, run: seq<Step>): Option<State> {
    if run == [] then Some(s)
    else match Extend(cfg, s, run[..|run| - 1])
      case None => None
      case Some(t) => if Enabled(t, run[|run| - 1]) then Some(Apply(cfg, t, run[|run| - 1])) else None
  }

  predicate Banned(run: seq<Step>, key: (RoomId, UserId)) {
    Unban(key.0, key.1) !in run
  }

  /** From a sealed state on, at most the calls that had passed by then still produce likes. */
  lemma {:induction false} SealedRuns(cfg: Config, s: State, run: seq<Step>, key: (RoomId, UserId))
    requires Sealed(s, key) && Banned(run, key) && Extend(cfg, s, run).Some?
    ensures Sealed(Extend(cfg, s, run).value, key)
    ensures LikesOf(Extend(cfg, s, run).value.likes, key) <= LikesOf(s.likes, key) + |Passed(s, key)|
    ensures LikesOf(Extend(cfg, s, run).value.likes, key) + |Passed(Extend(cfg, s, run).value, key)|
         <= LikesOf(s.likes, key) + |Passed(s, key)|
  {
    if run != [] {
      var before, last := run[..|run| - 1], run[|run| - 1];
      SealedRuns(cfg, s, before, key);
      SealedStays(cfg, Extend(cfg, s, before).value, last, key);
      SealedLikes(cfg, Extend(cfg, s, before).value, last, key);
    }
  }

  /** The cache tells callers that a user is not banned. */
  predicate CacheAdmits(s: State, key: (RoomId, UserId)) {
    BanCached(s, key) && !s.bans[key].value
  }

  /** Without a ban cache nothing overwrites what EnforceLikeBan stored. */
  lemma {:induction false} UncachedStays(cfg: Config, s: State, run: seq<Step>, key: (RoomId, UserId))
    requires cfg.banTTL == 0 && (key in s.bans ==> s.bans[key].value) && Extend(cfg, s, run).Some?
    ensures !CacheAdmits(Extend(cfg, s, run).value, key)
    ensures key in Extend(cfg, s, run).value.bans ==> Extend(cfg, s, run).value.bans[key].value
  {
    if run != [] {
      var before := run[..|run| - 1];
      UncachedStays(cfg, s, before, key);
      UncachedStep(cfg, Extend(cfg, s, before).value, run[|run| - 1], key);
    }
  }

  lemma UncachedStep(cfg: Config, s: State, step: Step, key: (RoomId, UserId))
    requires cfg.banTTL == 0 && (key in s.bans ==> s.bans[key].value) && Enabled(s, step)
    ensures key in Apply(cfg, s, step).bans ==> Apply(cfg, s, step).bans[key].value
  {
  }

  /**
   EnforceLikeBan is meant to override the cache at once. It does, for good, exactly when bans are not cached, or no
   lookup that read "not banned" before the ban is still on its way to the cache.
   */
  lemma EnforceHoldsIff(cfg: Config, s: State, key: (RoomId, UserId))
    requires key in s.world.bans
    ensures var t := Apply(cfg, s, EnforceLikeBan(key.0, key.1, true));
      (forall run :: Banned(run, key) && Extend(cfg, t, run).Some? ==> !CacheAdmits(Extend(cfg, t, run).value, key))
      <==> cfg.banTTL == 0 || !HasStale(s, key)
  {
    var t := Apply(cfg, s, EnforceLikeBan(key.0, key.1, true));
    if cfg.banTTL == 0 {
      forall run | Banned(run, key) && Extend(cfg, t, run).Some? ensures !CacheAdmits(Extend(cfg, t, run).value, key) {
        UncachedStays(cfg, t, run, key);
      }
    } else if !HasStale(s, key) {
      assert Sealed(t, key) by {
        forall pid | pid in t.calls ensures !Stale(t.calls[pid], key) { assert pid in s.calls; }
      }
      forall run | Banned(run, key) && Extend(cfg, t, run).Some? ensures !CacheAdmits(Extend(cfg, t, run).value, key) {
        SealedRuns(cfg, t, run, key);
      }
    } else {
      var pid :| pid in s.calls && Stale(s.calls[pid], key);
      var run := [FillBan(pid, true)];
      assert run[..0] == [] && run[0] == FillBan(pid, true);
      assert Extend(cfg, t, run) == Some(Apply(cfg, t, FillBan(pid, true)));
      assert Banned(run, key) && CacheAdmits(Extend(cfg, t, run).value, key);
    }
  }

  // ----- when a ban outlives its row -----

  /** The cache holds what EnforceLikeBan stored: a ban that never expires. */
  predicate Enforced(s: State, key: (RoomId, UserId)) {
    key in s.bans && s.bans[key].value && s.bans[key].expires.None?
  }

  /** A lookup that missed the cache and may still store what it reads. */
  predicate Fills(c: Call, key: (RoomId, UserId)) {
    (c.room, c.user) == key && (c.phase.BanMissed? || c.phase.BanRead?)
  }

  predicate HasFills(s: State, key: (RoomId, UserId)) {
    exists pid :: pid in s.calls && Fills(s.calls[pid], key)
  }

  /** Nobody clears the key and Redis does not lose it; Unban may be among the steps. */
  predicate Uncleared(run: seq<Step>, key: (RoomId, UserId)) {
    EnforceLikeBan(key.0, key.1, false) !in run && LoseBan(key.0, key.1) !in run
  }

  lemma EnforcedStep(cfg: Config, s: State, step: Step, key: (RoomId, UserId))
    requires Enabled(s, step) && Enforced(s, key) && (cfg.banTTL == 0 || !HasFills(s, key))
    requires step != EnforceLikeBan(key.0, key.1, false) && step != LoseBan(key.0, key.1)
    ensures Enforced(Apply(cfg, s, step), key) && (cfg.banTTL == 0 || !HasFills(Apply(cfg, s, step), key))
  {
    var t := Apply(cfg, s, step);
    if cfg.banTTL != 0 {
      if step.FillBan? { assert !Fills(s.calls[step.pid], key); }
      forall pid | pid in t.calls ensures !Fills(t.calls[pid], key) {
        if pid in s.calls { assert !Fills(s.calls[pid], key); }
      }
    }
  }

  lemma {:induction false} EnforcedRuns(cfg: Config, s: State, run: seq<Step>, key: (RoomId, UserId))
    requires Enforced(s, key) && (cfg.banTTL == 0 || !HasFills(s, key))
    requires Uncleared(run, key) && Extend(cfg, s, run).Some?
    ensures Enforced(Extend(cfg, s, run).value, key)
    ensures cfg.banTTL == 0 || !HasFills(Extend(cfg, s, run).value, key)
  {
    if run != [] {
      EnforcedRuns(cfg, s, run[..|run| - 1], key);
      EnforcedStep(cfg, Extend(cfg, s, run[..|run| - 1]).value, run[|run| - 1], key);
    }
  }

  /**
   What EnforceLikeBan stored refuses the user for good, whatever becomes of the ban in MySQL and however long it
   takes, until the key is cleared or lost: exactly when bans are not cached, or no lookup under way can overwrite it.
   */
  lemma RefusedForGoodIff(cfg: Config, s: State, key: (RoomId, UserId))
    requires Enforced(s, key)
    ensures (forall run :: Uncleared(run, key) && Extend(cfg, s, run).Some? ==> Enforced(Extend(cfg, s, run).value, key))
      <==> cfg.banTTL == 0 || !HasFills(s, key)
  {
    if cfg.banTTL == 0 || !HasFills(s, key) {
      forall run | Uncleared(run, key) && Extend(cfg, s, run).Some? ensures Enforced(Extend(cfg, s, run).value, key) {
        EnforcedRuns(cfg, s, run, key);
      }
    } else {
      var pid :| pid in s.calls && Fills(s.calls[pid], key);
      var run := Overwrites(cfg, s, pid, key);
      assert Uncleared(run, key);
    }
  }

  /** The lookup goes on and stores an entry that expires. */
  lemma Overwrites(cfg: Config, s: State, pid: Pid, key: (RoomId, UserId)) returns (run: seq<Step>)
    requires cfg.banTTL > 0 && pid in s.calls && Fills(s.calls[pid], key)
    ensures Uncleared(run, key) && Extend(cfg, s, run).Some? && !Enforced(Extend(cfg, s, run).value, key)
  {
    if s.calls[pid].phase.BanRead? {
      run := [FillBan(pid, true)];
      assert run[..0] == [];
    } else {
      run := [ReadBan(pid), FillBan(pid, true)];
      assert run[..1] == [ReadBan(pid)] && run[..1][..0] == [];
      assert Extend(cfg, s, run[..1]) == Some(Apply(cfg, s, ReadBan(pid)));
    }
  }

  /** A lookup that finds the entry is refused, although MySQL may hold no ban. */
  lemma EnforcedRefuses(cfg: Config, s: State, pid: Pid)
    requires Enabled(s, LookBan(pid)) && Enforced(s, (s.calls[pid].room, s.calls[pid].user))
    ensures var p := Apply(cfg, s, LookBan(pid)).calls[pid].phase; p.BanKnown? && p.banned
    ensures forall step :: step in {LookBan(pid), Limit(pid), AddLikes(pid)} ==> !Enabled(Apply(cfg, s, LookBan(pid)), step)
  {
  }

  // ----- the race is real -----

  lemma Grow(cfg: Config, run: seq<Step>, s: State, step: Step) returns (more: seq<Step>, t: State)
    requires Run(cfg, run) == Some(s) && Enabled(s, step)
    ensures more == run + [step] && t == Apply(cfg, s, step) && Run(cfg, more) == Some(t)
  {
    more, t := run + [step], Apply(cfg, s, step);
    assert more[..|run|] == run;
  }

  /** The state moved only by one call's phase. */
  ghost predicate PhaseOnly(s: State, t: State, pid: Pid, c: Call) {
    && s.past <= t.past && t == s.(calls := s.calls[pid := c], past := t.past)
    && forall k :: |s.past| <= k < |t.past| ==> t.past[k].world == s.world
  }

  lemma AskRoom(cfg: Config, run: seq<Step>, s: State, pid: Pid, r: RoomId, u: UserId)
    returns (more: seq<Step>, t: State)
    requires Run(cfg, run) == Some(s) && pid !in s.calls && r !in s.statuses
    ensures Run(cfg, more) == Some(t) && PhaseOnly(s, t, pid, Call(r, u, 1, s.now, StatusMissed))
  {
    hide Run;
    more, t := Grow(cfg, run, s, Begin(pid, r, u, 1));
    assert PhaseOnly(s, t, pid, Call(r, u, 1, s.now, Asked));
    more, t := Grow(cfg, more, t, LookStatus(pid));
  }

  /** A call whose room is LIVING and not cached learns so from MySQL. */
  lemma EnterRoom(cfg: Config, run: seq<Step>, s: State, pid: Pid, r: RoomId, u: UserId)
    returns (more: seq<Step>, t: State, mark: nat)
    requires Run(cfg, run) == Some(s) && pid !in s.calls && r !in s.statuses
    requires r in s.world.rooms && s.world.rooms[r].status == Living
    ensures Run(cfg, more) == Some(t) && PhaseOnly(s, t, pid, Call(r, u, 1, s.now, StatusKnown(Living, Reading(mark, None))))
  {
    hide Run;
    more, t := AskRoom(cfg, run, s, pid, r, u);
    mark := |t.past|;
    more, t := Grow(cfg, more, t, ReadStatus(pid));
    assert PhaseOnly(s, t, pid, Call(r, u, 1, s.now, StatusRead(Living, mark)));
    more, t := Grow(cfg, more, t, FillStatus(pid, false));
  }

  lemma OpenRoom(cfg: Config, r: RoomId) returns (run: seq<Step>, s: State)
    ensures Run(cfg, run) == Some(s)
    ensures s == Init().(world := World(map[r := Room(0, Living)], {}), past := s.past)
  {
    run, s := Grow(cfg, [], Init(), CreateRoom(r, 0));
    assert s.world == World(map[r := Room(0, Preparing)], {});
    run, s := Grow(cfg, run, s, ChangeStatus(r, 0, Preparing, Living));
    assert s.world == World(map[r := Room(0, Living)], {});
  }

  /** A call that has looked its user up and is about to store "not banned". */
  lemma StaleIsReachable(cfg: Config, r: RoomId, u: UserId) returns (run: seq<Step>, s: State)
    ensures Run(cfg, run) == Some(s) && s.now == 0
    ensures s.world == World(map[r := Room(0, Living)], {}) && s.bans == map[] && s.likes == []
    ensures s.calls.Keys == {0} && Stale(s.calls[0], (r, u)) && s.statuses == map[]
  {
    var mark;
    run, s := OpenRoom(cfg, r);
    run, s, mark := EnterRoom(cfg, run, s, 0, r, u);
    run, s := Grow(cfg, run, s, LookBan(0));
    run, s := Grow(cfg, run, s, ReadBan(0));
  }

  /** Banned and enforced at time zero; the late fill still stores "not banned". */
  lemma EnforceIsOverwritten(cfg: Config, r: RoomId, u: UserId) returns (run: seq<Step>, s: State, z: nat)
    requires cfg.banTTL >= 2
    ensures Run(cfg, run) == Some(s) && s.now == 1
    ensures s.world == World(map[r := Room(0, Living)], {(r, u)}) && CacheAdmits(s, (r, u)) && s.likes == []
    ensures s.calls.Keys == {0} && s.statuses == map[]
    ensures z < |s.past| && (r, u) in s.past[z].world.bans && s.past[z].at == 0
  {
    run, s := StaleIsReachable(cfg, r, u);
    run, s := Grow(cfg, run, s, Ban(r, u));
    z := |s.past|;
    run, s := Grow(cfg, run, s, EnforceLikeBan(r, u, true));
    run, s := Grow(cfg, run, s, FillBan(0, true));
    run, s := Grow(cfg, run, s, Tick(1));
  }

  lemma BanCheckPasses(cfg: Config, run: seq<Step>, s: State, pid: Pid, mark: nat, key: (RoomId, UserId))
    returns (more: seq<Step>, t: State)
    requires Run(cfg, run) == Some(s) && pid in s.calls && CacheAdmits(s, key) && s.likes == []
    requires s.calls[pid] == Call(key.0, key.1, 1, s.now, StatusKnown(Living, Reading(mark, None)))
    ensures Run(cfg, more) == Some(t) && s.past <= t.past
    ensures |t.likes| == 1 && (t.likes[0].room, t.likes[0].user) == key && t.likes[0].started == s.now
  {
    more, t := Grow(cfg, run, s, LookBan(pid));
    assert t.calls[pid] == Call(key.0, key.1, 1, s.now, BanKnown(false, s.bans[key].from, Reading(mark, None)));
    more, t := Grow(cfg, more, t, Limit(pid));
    assert t.calls[pid] == Call(key.0, key.1, 1, s.now, Admitted(s.bans[key].from, Reading(mark, None)));
    more, t := Grow(cfg, more, t, AddLikes(pid));
  }

  /** So a call begun after the ban was stored and enforced can still be accepted. */
  lemma BannedUserLikes(cfg: Config, r: RoomId, u: UserId) returns (run: seq<Step>, s: State, z: nat)
    requires cfg.banTTL >= 2
    ensures Run(cfg, run) == Some(s) && z < |s.past| && ShowsBan(s.past, z, (r, u), true)
    ensures |s.likes| == 1 && s.likes[0].user == u && s.likes[0].room == r && s.likes[0].started > s.past[z].at
  {
    var mark;
    run, s, z := EnforceIsOverwritten(cfg, r, u);
    var past := s.past;
    run, s, mark := EnterRoom(cfg, run, s, 1, r, u);
    assert s.past[z] == past[z];
    run, s := BanCheckPasses(cfg, run, s, 1, mark, (r, u));
  }

  /** An unbanned user is refused arbitrarily long after Unban, when the clearing of the cache failed. */
  lemma UnbannedUserRefused(cfg: Config, r: RoomId, u: UserId, d: nat) returns (run: seq<Step>, s: State, z: nat)
    ensures Run(cfg, run) == Some(s) && z < |s.past| && s.now >= s.past[z].at + d
    ensures forall k :: z <= k < |s.past| ==> ShowsBan(s.past, k, (r, u), false)
    ensures (r, u) !in s.world.bans && 0 in s.calls && (s.calls[0].room, s.calls[0].user) == (r, u)
    ensures s.calls[0].started >= s.past[z].at + d && s.calls[0].phase.BanKnown? && s.calls[0].phase.banned
  {
    hide Run;
    run, s := OpenRoom(cfg, r);
    run, s := Grow(cfg, run, s, Ban(r, u));
    run, s := Grow(cfg, run, s, EnforceLikeBan(r, u, true));
    run, s := Grow(cfg, run, s, Unban(r, u));
    z := |s.past|;
    run, s := Grow(cfg, run, s, Tick(d));
    assert (r, u) !in s.world.bans && s.past[z] == Seen(s.now - d, s.world);
    var mark;
    run, s, mark := EnterRoom(cfg, run, s, 0, r, u);
    run, s := Grow(cfg, run, s, LookBan(0));
  }
}
