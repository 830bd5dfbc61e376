/** What clearing the ban cache restores: EnforceLikeBan(false) after Unban. */
module LikeGateRelease {
  import opened Basics
  import opened LikeGate
  import opened LikeGateSafety

  /** A lookup that has read a ban and may still store it. */
  predicate StaleBan(c: Call, key: (RoomId, UserId)) {
    (c.room, c.user) == key && c.phase.BanRead? && c.phase.banned
  }

  predicate HasStaleBan(s: State, key: (RoomId, UserId)) {
    exists pid :: pid in s.calls && StaleBan(s.calls[pid], key)
  }

  /** The call has been told that its user is banned. */
  predicate Refused(c: Call, key: (RoomId, UserId)) {
    (c.room, c.user) == key && c.phase.BanKnown? && c.phase.banned
  }

  /** Nobody bans the user. */
  predicate Unharmed(run: seq<Step>, key: (RoomId, UserId)) {
    Ban(key.0, key.1) !in run && EnforceLikeBan(key.0, key.1, true) !in run
  }

  /** Clearing removes the entry, and nothing else, so that the next check of the user misses and then reads MySQL. */
  lemma ClearedIsRead(cfg: Config, s: State, key: (RoomId, UserId), pid: Pid)
    ensures var t := Apply(cfg, s, EnforceLikeBan(key.0, key.1, false));
      && key !in t.bans && t.world == s.world && t.calls == s.calls && t.statuses == s.statuses
      && (forall other :: other != key ==> (other in t.bans <==> other in s.bans))
      && (forall other :: other != key && other in s.bans ==> t.bans[other] == s.bans[other])
      && (Enabled(t, LookBan(pid)) && (t.calls[pid].room, t.calls[pid].user) == key ==>
            var u := Apply(cfg, t, LookBan(pid));
            && Enabled(u, ReadBan(pid)) && !Enabled(u, Limit(pid))
            && Apply(cfg, u, ReadBan(pid)).calls[pid].phase.BanRead?
            && (Apply(cfg, u, ReadBan(pid)).calls[pid].phase.banned <==> key in s.world.bans))
  {
  }

  /** MySQL holds no ban, the cache does not claim one and nobody is about to. */
  predicate Released(s: State, key: (RoomId, UserId)) {
    key !in s.world.bans && (key in s.bans ==> !s.bans[key].value) && !HasStaleBan(s, key)
  }

  /** Every call told of a ban in t was told of it in s already. */
  ghost predicate NoNewRefusals(s: State, t: State, key: (RoomId, UserId)) {
    forall pid :: pid in t.calls && Refused(t.calls[pid], key) ==> pid in s.calls && s.calls[pid] == t.calls[pid]
  }

  lemma ReleasedStep(cfg: Config, s: State, step: Step, key: (RoomId, UserId))
    requires Enabled(s, step) && Released(s, key)
    requires step != Ban(key.0, key.1) && step != EnforceLikeBan(key.0, key.1, true)
    ensures Released(Apply(cfg, s, step), key) && NoNewRefusals(s, Apply(cfg, s, step), key)
  {
    hide Apply;
    ReleasedCache(cfg, s, step, key);
    ReleasedLookups(cfg, s, step, key);
    ReleasedCalls(cfg, s, step, key);
  }

  lemma ReleasedCache(cfg: Config, s: State, step: Step, key: (RoomId, UserId))
    requires Enabled(s, step) && Released(s, key)
    requires step != Ban(key.0, key.1) && step != EnforceLikeBan(key.0, key.1, true)
    ensures var t := Apply(cfg, s, step); key !in t.world.bans && (key in t.bans ==> !t.bans[key].value)
  {
    if step.FillBan? { assert !StaleBan(s.calls[step.pid], key); }
  }

  lemma ReleasedLookups(cfg: Config, s: State, step: Step, key: (RoomId, UserId))
    requires Enabled(s, step) && Released(s, key)
    ensures !HasStaleBan(Apply(cfg, s, step), key)
  {
    hide Changed;
    var t := Apply(cfg, s, step);
    forall pid | pid in t.calls ensures !StaleBan(t.calls[pid], key) {
      if pid in s.calls { assert !StaleBan(s.calls[pid], key); }
    }
  }

  lemma ReleasedCalls(cfg: Config, s: State, step: Step, key: (RoomId, UserId))
    requires Enabled(s, step) && Released(s, key)
    ensures NoNewRefusals(s, Apply(cfg, s, step), key)
  {
    hide Changed;
    if step.FillBan? { assert !StaleBan(s.calls[step.pid], key); }
  }

  /** Until a new ban of the user, the release stays, and no call begun from then on is refused as banned. */
  lemma {:induction false} ReleasedRuns(cfg: Config, s: State, run: seq<Step>, key: (RoomId, UserId))
    requires Released(s, key) && Unharmed(run, key) && Extend(cfg, s, run).Some?
    ensures Released(Extend(cfg, s, run).value, key) && NoNewRefusals(s, Extend(cfg, s, run).value, key)
  {
    if run != [] {
      ReleasedRuns(cfg, s, run[..|run| - 1], key);
      ReleasedStep(cfg, Extend(cfg, s, run[..|run| - 1]).value, run[|run| - 1], key);
    }
  }

  /** The cache tells callers that a user is banned. */
  predicate CacheRefuses(s: State, key: (RoomId, UserId)) {
    BanCached(s, key) && s.bans[key].value
  }

  lemma {:induction false} UncachedStays(cfg: Config, s: State, run: seq<Step>, key: (RoomId, UserId))
    requires cfg.banTTL == 0 && (key in s.bans ==> !s.bans[key].value) && Unharmed(run, key) && Extend(cfg, s, run).Some?
    ensures key in Extend(cfg, s, run).value.bans ==> !Extend(cfg, s, run).value.bans[key].value
  {
    if run != [] {
      UncachedStays(cfg, s, run[..|run| - 1], key);
      UncachedStep(cfg, Extend(cfg, s, run[..|run| - 1]).value, run[|run| - 1], key);
    }
  }

  lemma UncachedStep(cfg: Config, s: State, step: Step, key: (RoomId, UserId))
    requires cfg.banTTL == 0 && (key in s.bans ==> !s.bans[key].value) && Enabled(s, step)
    requires step != EnforceLikeBan(key.0, key.1, true)
    ensures key in Apply(cfg, s, step).bans ==> !Apply(cfg, s, step).bans[key].value
  {
  }

  /**
   Clearing after Unban frees the user for good, until a new ban, exactly when bans are not cached or no lookup that
   read the ban is still on its way to the cache.
   */
  lemma ClearHoldsIff(cfg: Config, s: State, key: (RoomId, UserId))
    requires key !in s.world.bans
    ensures var t := Apply(cfg, s, EnforceLikeBan(key.0, key.1, false));
      (forall run :: Unharmed(run, key) && Extend(cfg, t, run).Some? ==> !CacheRefuses(Extend(cfg, t, run).value, key))
      <==> cfg.banTTL == 0 || !HasStaleBan(s, key)
  {
    var t := Apply(cfg, s, EnforceLikeBan(key.0, key.1, false));
    if cfg.banTTL == 0 {
      forall run | Unharmed(run, key) && Extend(cfg, t, run).Some? ensures !CacheRefuses(Extend(cfg, t, run).value, key) {
        UncachedStays(cfg, t, run, key);
      }
    } else if !HasStaleBan(s, key) {
      assert Released(t, key) by {
        forall pid | pid in t.calls ensures !StaleBan(t.calls[pid], key) { assert pid in s.calls; }
      }
      forall run | Unharmed(run, key) && Extend(cfg, t, run).Some? ensures !CacheRefuses(Extend(cfg, t, run).value, key) {
        ReleasedRuns(cfg, t, run, key);
      }
    } else {
      var pid :| pid in s.calls && StaleBan(s.calls[pid], key);
      var run := [FillBan(pid, true)];
      assert run[..0] == [] && run[0] == FillBan(pid, true);
      assert Extend(cfg, t, run) == Some(Apply(cfg, t, FillBan(pid, true)));
      assert Unharmed(run, key) && CacheRefuses(Extend(cfg, t, run).value, key);
    }
  }

  // ----- allowed users do like -----

  /**
   Whoever may like can: from any reachable state in which MySQL shows a LIVING room and no ban, and the caches say
   nothing, a new call is accepted and counted.
   */
  lemma AllowedUserLikes(cfg: Config, run: seq<Step>, s: State, pid: Pid, r: RoomId, u: UserId)
    returns (more: seq<Step>, t: State)
    requires Run(cfg, run) == Some(s) && pid !in s.calls && r !in s.statuses && (r, u) !in s.bans
    requires r in s.world.rooms && s.world.rooms[r].status == Living && (r, u) !in s.world.bans
    ensures Run(cfg, more) == Some(t) && t.world == s.world && s.past <= t.past
    ensures |t.likes| == |s.likes| + 1 && t.likes[..|s.likes|] == s.likes
    ensures var l := t.likes[|s.likes|]; l.room == r && l.user == u && l.count == 1 && l.started == l.at == s.now
  {
    hide Run;
    var mark;
    more, t, mark := EnterRoom(cfg, run, s, pid, r, u);
    var known;
    more, t, known := CheckInMySQL(cfg, more, t, pid, Call(r, u, 1, s.now, StatusKnown(Living, Reading(mark, None))));
    more, t := CountLike(cfg, more, t, pid, known);
  }

  /** A call whose user is neither cached nor banned learns so from MySQL. */
  lemma CheckInMySQL(cfg: Config, run: seq<Step>, s: State, pid: Pid, c: Call)
    returns (more: seq<Step>, t: State, known: Call)
    requires Run(cfg, run) == Some(s) && pid in s.calls && s.calls[pid] == c && c.phase.StatusKnown? && c.phase.status == Living
    requires (c.room, c.user) !in s.bans && (c.room, c.user) !in s.world.bans
    ensures Run(cfg, more) == Some(t) && PhaseOnly(s, t, pid, known)
    ensures known == c.(phase := known.phase) && known.phase.BanKnown? && !known.phase.banned
  {
    hide Run;
    more, t := Grow(cfg, run, s, LookBan(pid));
    assert PhaseOnly(s, t, pid, c.(phase := BanMissed(c.phase.from)));
    var mark := |t.past|;
    more, t := Grow(cfg, more, t, ReadBan(pid));
    assert PhaseOnly(s, t, pid, c.(phase := BanRead(false, mark, c.phase.from)));
    more, t := Grow(cfg, more, t, FillBan(pid, false));
    known := c.(phase := BanKnown(false, Reading(mark, None), c.phase.from));
  }

  lemma CountLike(cfg: Config, run: seq<Step>, s: State, pid: Pid, c: Call) returns (more: seq<Step>, t: State)
    requires Run(cfg, run) == Some(s) && pid in s.calls && s.calls[pid] == c && c.phase.BanKnown? && !c.phase.banned
    ensures Run(cfg, more) == Some(t) && t.world == s.world && s.past <= t.past
    ensures |t.likes| == |s.likes| + 1 && t.likes[..|s.likes|] == s.likes
    ensures var l := t.likes[|s.likes|];
      l.room == c.room && l.user == c.user && l.count == c.count && l.started == c.started && l.at == s.now
  {
    hide Run;
    more, t := Grow(cfg, run, s, Limit(pid));
    assert t.calls[pid] == c.(phase := Admitted(c.phase.from, c.phase.room));
    more, t := Grow(cfg, more, t, AddLikes(pid));
  }

  /** Banned, enforced, unbanned and cleared: the like of the unbanned user is accepted. */
  lemma UnbannedUserLikes(cfg: Config, r: RoomId, u: UserId) returns (run: seq<Step>, s: State, z: nat)
    ensures Run(cfg, run) == Some(s) && z < |s.past| && ShowsBan(s.past, z, (r, u), true)
    ensures |s.likes| == 1 && s.likes[0].room == r && s.likes[0].user == u && s.likes[0].started > s.past[z].at
  {
    hide Run;
    run, s := OpenRoom(cfg, r);
    run, s := Grow(cfg, run, s, Ban(r, u));
    z := |s.past|;
    run, s := Grow(cfg, run, s, EnforceLikeBan(r, u, true));
    run, s := Grow(cfg, run, s, Unban(r, u));
    run, s := Grow(cfg, run, s, EnforceLikeBan(r, u, false));
    run, s := Grow(cfg, run, s, Tick(1));
    assert s.bans == map[] && (r, u) !in s.world.bans;
    var past := s.past;
    run, s := AllowedUserLikes(cfg, run, s, 0, r, u);
    assert s.past[z] == past[z];
  }
}
