/**
 Who may like: the TTL caches of room status and bans in front of the room service (internal/like/service.go,
 internal/store/redisstore/redis.go) and the truth they stand for (internal/room). Every statement is one step,
 so cache fills race with Start, Stop, Ban, Unban and EnforceLikeBan. `past` keeps what MySQL held at each step.
 */
module LikeGate {
  import opened Basics

  type RoomId = int
  type UserId = int
  type Pid = nat

  datatype Status = Preparing | Living | Closed

  datatype Room = Room(anchor: UserId, status: Status)

  /** The live_rooms and room_bans tables. */
  datatype World = World(rooms: map<RoomId, Room>, bans: set<(RoomId, UserId)>)

  datatype Seen = Seen(at: Time, world: World)

  /** A cache write: the call that made it and when. No user means the status cache. */
  datatype Fill = Fill(room: RoomId, user: Option<UserId>, started: Time, at: Time)

  /** Where a value comes from: the state of MySQL it was read from, and the fill that cached it, if one did. */
  datatype Reading = Reading(mark: nat, fill: Option<nat>)

  /** A Redis key: it is gone once its expiry has passed. */
  datatype Entry<V> = Entry(value: V, expires: Option<Time>, from: Reading)

  datatype Phase =
    | Asked
    | StatusMissed
    | StatusRead(status: Status, mark: nat)
    | StatusKnown(status: Status, from: Reading)
    | BanMissed(room: Reading)
    | BanRead(banned: bool, mark: nat, room: Reading)
    | BanKnown(banned: bool, from: Reading, room: Reading)
    | Admitted(ban: Reading, room: Reading)

  datatype Call = Call(room: RoomId, user: UserId, count: nat, started: Time, phase: Phase)

  /** A like that reached the counters, with the readings that let it through. */
  datatype Like = Like(room: RoomId, user: UserId, count: nat, started: Time, at: Time, ban: Reading, status: Reading)

  /** `fills` remembers every cache write, `enforced` every ban pushed into the cache. */
  datatype State = State(
    now: Time, world: World, past: seq<Seen>,
    statuses: map<RoomId, Entry<Status>>, bans: map<(RoomId, UserId), Entry<bool>>,
    calls: map<Pid, Call>, likes: seq<Like>, fills: seq<Fill>, enforced: set<(RoomId, UserId)>)

  /** Cache lifetimes; zero means the value is not cached. */
  datatype Config = Config(roomTTL: nat, banTTL: nat)

  datatype Step =
    | Tick(d: nat)
    | CreateRoom(room: RoomId, anchor: UserId)
    | ChangeStatus(room: RoomId, anchor: UserId, from: Status, to: Status)
    | Ban(room: RoomId, user: UserId)
    | Unban(room: RoomId, user: UserId)
    | EnforceLikeBan(room: RoomId, user: UserId, banned: bool)
    | LoseStatus(room: RoomId)
    | LoseBan(room: RoomId, user: UserId)
    | Begin(pid: Pid, room: RoomId, user: UserId, count: nat)
    | LookStatus(pid: Pid)
    | ReadStatus(pid: Pid)
    | FillStatus(pid: Pid, stored: bool)
    | LookBan(pid: Pid)
    | ReadBan(pid: Pid)
    | FillBan(pid: Pid, stored: bool)
    | Limit(pid: Pid)
    | AddLikes(pid: Pid)
    | End(pid: Pid)

  function Init(): State {
    State(0, World(map[], {}), [], map[], map[], map[], [], [], {})
  }

  function Live<V>(e: Entry<V>, now: Time): bool {
    e.expires.None? || now < e.expires.value
  }

  predicate InPhase(s: State, pid: Pid, phase: Phase -> bool) {
    pid in s.calls && phase(s.calls[pid].phase)
  }

  predicate StatusCached(s: State, room: RoomId) {
    room in s.statuses && Live(s.statuses[room], s.now)
  }

  predicate BanCached(s: State, key: (RoomId, UserId)) {
    key in s.bans && Live(s.bans[key], s.now)
  }

  predicate Enabled(s: State, step: Step) {
    match step
    case Tick(_) => true
    case CreateRoom(room, _) => room !in s.world.rooms
    case ChangeStatus(_, _, from, to) => (from == Preparing && to == Living) || (from == Living && to == Closed)
    case Ban(_, _) => true
    case Unban(_, _) => true
    case EnforceLikeBan(_, _, _) => true
    case LoseStatus(_) => true
    case LoseBan(_, _) => true
    case Begin(pid, _, _, count) => pid !in s.calls && 1 <= count <= 100
    case LookStatus(pid) => InPhase(s, pid, (p: Phase) => p.Asked?)
    case ReadStatus(pid) => InPhase(s, pid, (p: Phase) => p.StatusMissed?) && s.calls[pid].room in s.world.rooms
    case FillStatus(pid, _) => InPhase(s, pid, (p: Phase) => p.StatusRead?)
    case LookBan(pid) => InPhase(s, pid, (p: Phase) => p.StatusKnown? && p.status == Living)
    case ReadBan(pid) => InPhase(s, pid, (p: Phase) => p.BanMissed?)
    case FillBan(pid, _) => InPhase(s, pid, (p: Phase) => p.BanRead?)
    case Limit(pid) => InPhase(s, pid, (p: Phase) => p.BanKnown? && !p.banned)
    case AddLikes(pid) => InPhase(s, pid, (p: Phase) => p.Admitted?)
    case End(pid) => pid in s.calls
  }

  function Goto(s: State, pid: Pid, phase: Phase): (t: State)
    requires pid in s.calls
    ensures t.world == s.world
  {
    s.(calls := s.calls[pid := s.calls[pid].(phase := phase)])
  }

  /** UPDATE live_rooms SET status WHERE id AND anchor_id AND status. */
  function Changed(w: World, room: RoomId, anchor: UserId, from: Status, to: Status): World {
    if room in w.rooms && w.rooms[room] == Room(anchor, from) then w.(rooms := w.rooms[room := Room(anchor, to)]) else w
  }

  /** A fill stores a value with a lifetime, unless caching is off or the write is lost. */
  function FilledStatus(cfg: Config, s: State, pid: Pid, stored: bool): (t: State)
    requires pid in s.calls && s.calls[pid].phase.StatusRead?
    ensures t.world == s.world
  {
    var c := s.calls[pid];
    var t := Goto(s, pid, StatusKnown(c.phase.status, Reading(c.phase.mark, None)));
    if cfg.roomTTL == 0 || !stored then t
    else t.(
      statuses := s.statuses[c.room :=
        Entry(c.phase.status, Some(s.now + cfg.roomTTL), Reading(c.phase.mark, Some(|s.fills|)))],
      fills := s.fills + [Fill(c.room, None, c.started, s.now)])
  }

  function FilledBan(cfg: Config, s: State, pid: Pid, stored: bool): (t: State)
    requires pid in s.calls && s.calls[pid].phase.BanRead?
    ensures t.world == s.world
  {
    var c := s.calls[pid];
    var t := Goto(s, pid, BanKnown(c.phase.banned, Reading(c.phase.mark, None), c.phase.room));
    if cfg.banTTL == 0 || !stored then t
    else t.(
      bans := s.bans[(c.room, c.user) :=
        Entry(c.phase.banned, Some(s.now + cfg.banTTL), Reading(c.phase.mark, Some(|s.fills|)))],
      fills := s.fills + [Fill(c.room, Some(c.user), c.started, s.now)])
  }

  function Looked(s: State, pid: Pid): (t: State)
    requires pid in s.calls
    ensures t.world == s.world
  {
    var c := s.calls[pid];
    if StatusCached(s, c.room) then Goto(s, pid, StatusKnown(s.statuses[c.room].value, s.statuses[c.room].from))
    else Goto(s, pid, StatusMissed)
  }

  function LookedBan(s: State, pid: Pid): (t: State)
    requires pid in s.calls && s.calls[pid].phase.StatusKnown?
    ensures t.world == s.world
  {
    var c := s.calls[pid];
    var key := (c.room, c.user);
    if BanCached(s, key) then Goto(s, pid, BanKnown(s.bans[key].value, s.bans[key].from, c.phase.from))
    else Goto(s, pid, BanMissed(c.phase.from))
  }

  function Liked(s: State, pid: Pid): (t: State)
    requires pid in s.calls && s.calls[pid].phase.Admitted?
    ensures t.world == s.world
  {
    var c := s.calls[pid];
    s.(likes := s.likes + [Like(c.room, c.user, c.count, c.started, s.now, c.phase.ban, c.phase.room)],
       calls := s.calls - {pid})
  }

  function Effect(cfg: Config, s: State, step: Step): State
    requires Enabled(s, step)
  {
    match step
    case Tick(d) => s.(now := s.now + d)
    case CreateRoom(room, anchor) => s.(world := s.world.(rooms := s.world.rooms[room := Room(anchor, Preparing)]))
    case ChangeStatus(room, anchor, from, to) => s.(world := Changed(s.world, room, anchor, from, to))
    case Ban(room, user) => s.(world := s.world.(bans := s.world.bans + {(room, user)}))
    case Unban(room, user) => s.(world := s.world.(bans := s.world.bans - {(room, user)}))
    case EnforceLikeBan(room, user, banned) =>
      if banned then s.(
        bans := s.bans[(room, user) := Entry(true, None, Reading(|s.past|, None))],
        enforced := s.enforced + {(room, user)})
      else s.(bans := s.bans - {(room, user)})
    case LoseStatus(room) => s.(statuses := s.statuses - {room})
    case LoseBan(room, user) => s.(bans := s.bans - {(room, user)})
    case Begin(pid, room, user, count) => s.(calls := s.calls[pid := Call(room, user, count, s.now, Asked)])
    case LookStatus(pid) => Looked(s, pid)
    case ReadStatus(pid) => Goto(s, pid, StatusRead(s.world.rooms[s.calls[pid].room].status, |s.past|))
    case FillStatus(pid, stored) => FilledStatus(cfg, s, pid, stored)
    case LookBan(pid) => LookedBan(s, pid)
    case ReadBan(pid) =>
      var c := s.calls[pid];
      Goto(s, pid, BanRead((c.room, c.user) in s.world.bans, |s.past|, c.phase.room))
    case FillBan(pid, stored) => FilledBan(cfg, s, pid, stored)
    case Limit(pid) => Goto(s, pid, Admitted(s.calls[pid].phase.from, s.calls[pid].phase.room))
    case AddLikes(pid) => Liked(s, pid)
    case End(pid) => s.(calls := s.calls - {pid})
  }

  /** Every step leaves a snapshot of MySQL as it was when the step ran. */
  function Apply(cfg: Config, s: State, step: Step): State
    requires Enabled(s, step)
  {
    Effect(cfg, s, step).(past := s.past + [Seen(s.now, s.world)])
  }

  function Run(cfg: Config, run: seq<Step>): Option<State> {
    if run == [] then Some(Init())
    else match Run(cfg, run[..|run| - 1])
      case None => None
      case Some(s) => if Enabled(s, run[|run| - 1]) then Some(Apply(cfg, s, run[|run| - 1])) else None
  }

  ghost predicate Reachable(cfg: Config, s: State) {
    exists run :: Run(cfg, run) == Some(s)
  }

  // ----- the invariant -----

  /** MySQL held this status of the room at the marked instant. */
  predicate ShowsStatus(past: seq<Seen>, mark: nat, room: RoomId, status: Status) {
    mark < |past| && room in past[mark].world.rooms && past[mark].world.rooms[room].status == status
  }

  predicate ShowsBan(past: seq<Seen>, mark: nat, key: (RoomId, UserId), banned: bool) {
    mark < |past| && (key in past[mark].world.bans <==> banned)
  }

  /** The time a call took up to its cache write. */
  function Ran(f: Fill): nat {
    if f.at >= f.started then f.at - f.started else 0
  }

  /** How far back of the start of a call a reading may lie: nothing if the call made it, else cache time and fill. */
  function Slack(fills: seq<Fill>, ttl: nat, r: Reading): nat {
    if r.fill.Some? && r.fill.value < |fills| then ttl + Ran(fills[r.fill.value]) else 0
  }

  /** The fill is of the right cache key, and it is the call that made it who read MySQL. */
  predicate FillFor(past: seq<Seen>, fills: seq<Fill>, r: Reading, room: RoomId, user: Option<UserId>) {
    r.fill.Some? ==>
      && r.mark < |past| && r.fill.value < |fills|
      && var f := fills[r.fill.value];
      f.room == room && f.user == user && f.started <= past[r.mark].at <= f.at
  }

  /** At `t` the reading is within its slack. */
  predicate Fresh(past: seq<Seen>, fills: seq<Fill>, r: Reading, t: Time, ttl: nat) {
    r.mark < |past| && t <= past[r.mark].at + Slack(fills, ttl, r)
  }

  ghost predicate PastOk(past: seq<Seen>, now: Time) {
    && (forall i :: 0 <= i < |past| ==> past[i].at <= now)
    && (forall i, j :: 0 <= i < j < |past| ==> past[i].at <= past[j].at)
  }

  ghost predicate RoomReading(cfg: Config, past: seq<Seen>, fills: seq<Fill>, room: RoomId, status: Status, r: Reading, t: Time) {
    ShowsStatus(past, r.mark, room, status) && FillFor(past, fills, r, room, None) && Fresh(past, fills, r, t, cfg.roomTTL)
  }

  ghost predicate BanReading(cfg: Config, past: seq<Seen>, fills: seq<Fill>, key: (RoomId, UserId), banned: bool,
                             r: Reading, t: Time) {
    ShowsBan(past, r.mark, key, banned) && FillFor(past, fills, r, key.0, Some(key.1)) && Fresh(past, fills, r, t, cfg.banTTL)
  }

  /** A ban is reported only from a reading of it that is fresh enough, or after EnforceLikeBan. */
  ghost predicate BanGrounded(cfg: Config, past: seq<Seen>, fills: seq<Fill>, enforced: set<(RoomId, UserId)>,
                              key: (RoomId, UserId), banned: bool, r: Reading, t: Time) {
    BanReading(cfg, past, fills, key, banned, r, t) || (banned && key in enforced)
  }

  ghost predicate StatusesOk(cfg: Config, past: seq<Seen>, fills: seq<Fill>, statuses: map<RoomId, Entry<Status>>) {
    forall room :: room in statuses ==>
      var e := statuses[room];
      e.expires.Some? && e.from.fill.Some? && RoomReading(cfg, past, fills, room, e.value, e.from, e.expires.value)
  }

  /** A fill stores what it read, for a while; EnforceLikeBan stores a ban that never expires. */
  ghost predicate BansOk(cfg: Config, past: seq<Seen>, fills: seq<Fill>, enforced: set<(RoomId, UserId)>,
                         bans: map<(RoomId, UserId), Entry<bool>>) {
    forall key :: key in bans ==>
      var e := bans[key];
      if e.expires.Some? then e.from.fill.Some? && BanReading(cfg, past, fills, key, e.value, e.from, e.expires.value)
      else e.value && key in enforced
  }

  /** What a call knows rests on readings that were in time for it. */
  ghost predicate CallOk(cfg: Config, past: seq<Seen>, now: Time, c: Call, fills: seq<Fill>, enforced: set<(RoomId, UserId)>) {
    var key := (c.room, c.user);
    && c.started <= now
    && match c.phase
       case Asked => true
       case StatusMissed => true
       case StatusRead(status, mark) => RoomReading(cfg, past, fills, c.room, status, Reading(mark, None), c.started)
       case StatusKnown(status, r) => RoomReading(cfg, past, fills, c.room, status, r, c.started)
       case BanMissed(room) => RoomReading(cfg, past, fills, c.room, Living, room, c.started)
       case BanRead(banned, mark, room) =>
         && RoomReading(cfg, past, fills, c.room, Living, room, c.started)
         && ShowsBan(past, mark, key, banned) && Fresh(past, fills, Reading(mark, None), c.started, 0)
       case BanKnown(banned, r, room) =>
         && RoomReading(cfg, past, fills, c.room, Living, room, c.started)
         && BanGrounded(cfg, past, fills, enforced, key, banned, r, c.started)
       case Admitted(ban, room) =>
         && RoomReading(cfg, past, fills, c.room, Living, room, c.started)
         && BanReading(cfg, past, fills, key, false, ban, c.started)
  }

  ghost predicate CallsOk(cfg: Config, past: seq<Seen>, now: Time, calls: map<Pid, Call>, fills: seq<Fill>, enforced: set<(RoomId, UserId)>) {
    forall pid :: pid in calls ==> CallOk(cfg, past, now, calls[pid], fills, enforced)
  }

  ghost predicate LikeOk(cfg: Config, past: seq<Seen>, l: Like, fills: seq<Fill>) {
    && l.started <= l.at
    && RoomReading(cfg, past, fills, l.room, Living, l.status, l.started)
    && BanReading(cfg, past, fills, (l.room, l.user), false, l.ban, l.started)
  }

  ghost predicate LikesOk(cfg: Config, past: seq<Seen>, likes: seq<Like>, fills: seq<Fill>) {
    forall i :: 0 <= i < |likes| ==> LikeOk(cfg, past, likes[i], fills)
  }

  /** A room never leaves the table, never changes its anchor and only moves forward through its states. */
  predicate Forward(a: World, b: World) {
    forall room :: room in a.rooms ==>
      && room in b.rooms && b.rooms[room].anchor == a.rooms[room].anchor
      && (a.rooms[room].status == Closed ==> b.rooms[room].status == Closed)
      && (b.rooms[room].status == Preparing ==> a.rooms[room].status == Preparing)
  }

  ghost predicate WorldOk(past: seq<Seen>, world: World) {
    && (forall i, j :: 0 <= i < j < |past| ==> Forward(past[i].world, past[j].world))
    && (forall i :: 0 <= i < |past| ==> Forward(past[i].world, world))
  }

  ghost predicate Inv(cfg: Config, s: State) {
    && PastOk(s.past, s.now) && WorldOk(s.past, s.world)
    && StatusesOk(cfg, s.past, s.fills, s.statuses) && BansOk(cfg, s.past, s.fills, s.enforced, s.bans)
    && CallsOk(cfg, s.past, s.now, s.calls, s.fills, s.enforced) && LikesOk(cfg, s.past, s.likes, s.fills)
  }

  // ----- every step keeps it -----

  /** Readings stay what they are when history grows. */
  lemma RoomReadingCarries(cfg: Config, past: seq<Seen>, past': seq<Seen>, fills: seq<Fill>, fills': seq<Fill>,
                           room: RoomId, status: Status, r: Reading, t: Time)
    requires RoomReading(cfg, past, fills, room, status, r, t) && past <= past' && fills <= fills'
    ensures RoomReading(cfg, past', fills', room, status, r, t)
  {
  }

  lemma BanReadingCarries(cfg: Config, past: seq<Seen>, past': seq<Seen>, fills: seq<Fill>, fills': seq<Fill>,
                          key: (RoomId, UserId), banned: bool, r: Reading, t: Time)
    requires BanReading(cfg, past, fills, key, banned, r, t) && past <= past' && fills <= fills'
    ensures BanReading(cfg, past', fills', key, banned, r, t)
  {
  }

  lemma CallCarries(cfg: Config, past: seq<Seen>, past': seq<Seen>, now: Time, later: Time, c: Call,
                    fills: seq<Fill>, fills': seq<Fill>, enforced: set<(RoomId, UserId)>, enforced': set<(RoomId, UserId)>)
    requires CallOk(cfg, past, now, c, fills, enforced) && past <= past' && now <= later && fills <= fills' && enforced <= enforced'
    ensures CallOk(cfg, past', later, c, fills', enforced')
  {
    hide RoomReading, BanReading;
    if c.phase.StatusRead? {
      RoomReadingCarries(cfg, past, past', fills, fills', c.room, c.phase.status, Reading(c.phase.mark, None), c.started);
    } else if c.phase.StatusKnown? {
      RoomReadingCarries(cfg, past, past', fills, fills', c.room, c.phase.status, c.phase.from, c.started);
    } else if !c.phase.Asked? && !c.phase.StatusMissed? {
      RoomReadingCarries(cfg, past, past', fills, fills', c.room, Living, c.phase.room, c.started);
      if c.phase.BanKnown? && BanReading(cfg, past, fills, (c.room, c.user), c.phase.banned, c.phase.from, c.started) {
        BanReadingCarries(cfg, past, past', fills, fills', (c.room, c.user), c.phase.banned, c.phase.from, c.started);
      } else if c.phase.Admitted? {
        BanReadingCarries(cfg, past, past', fills, fills', (c.room, c.user), false, c.phase.ban, c.started);
      }
    }
  }

  lemma CallsCarry(cfg: Config, s: State, t: State)
    requires CallsOk(cfg, s.past, s.now, s.calls, s.fills, s.enforced)
    requires s.past <= t.past && s.now <= t.now && s.fills <= t.fills && s.enforced <= t.enforced
    ensures CallsOk(cfg, t.past, t.now, s.calls, t.fills, t.enforced)
  {
    hide CallOk;
    forall pid | pid in s.calls ensures CallOk(cfg, t.past, t.now, s.calls[pid], t.fills, t.enforced) {
      CallCarries(cfg, s.past, t.past, s.now, t.now, s.calls[pid], s.fills, t.fills, s.enforced, t.enforced);
    }
  }

  lemma CachesCarry(cfg: Config, s: State, t: State)
    requires StatusesOk(cfg, s.past, s.fills, s.statuses) && BansOk(cfg, s.past, s.fills, s.enforced, s.bans)
    requires s.past <= t.past && s.fills <= t.fills && s.enforced <= t.enforced
    ensures StatusesOk(cfg, t.past, t.fills, s.statuses) && BansOk(cfg, t.past, t.fills, t.enforced, s.bans)
  {
    hide RoomReading, BanReading;
    forall room | room in s.statuses
      ensures RoomReading(cfg, t.past, t.fills, room, s.statuses[room].value, s.statuses[room].from, s.statuses[room].expires.value)
    {
      var e := s.statuses[room];
      RoomReadingCarries(cfg, s.past, t.past, s.fills, t.fills, room, e.value, e.from, e.expires.value);
    }
    forall key | key in s.bans && s.bans[key].expires.Some?
      ensures BanReading(cfg, t.past, t.fills, key, s.bans[key].value, s.bans[key].from, s.bans[key].expires.value)
    {
      var e := s.bans[key];
      BanReadingCarries(cfg, s.past, t.past, s.fills, t.fills, key, e.value, e.from, e.expires.value);
    }
  }

  lemma LikesCarry(cfg: Config, s: State, t: State)
    requires LikesOk(cfg, s.past, s.likes, s.fills) && s.past <= t.past && s.fills <= t.fills
    ensures LikesOk(cfg, t.past, s.likes, t.fills)
  {
    hide RoomReading, BanReading;
    forall i | 0 <= i < |s.likes| ensures LikeOk(cfg, t.past, s.likes[i], t.fills) {
      var l := s.likes[i];
      assert LikeOk(cfg, s.past, l, s.fills);
      RoomReadingCarries(cfg, s.past, t.past, s.fills, t.fills, l.room, Living, l.status, l.started);
      BanReadingCarries(cfg, s.past, t.past, s.fills, t.fills, (l.room, l.user), false, l.ban, l.started);
    }
  }

  /** The tables only move forward, whatever the step. */
  lemma StepMovesForward(cfg: Config, s: State, step: Step)
    requires Enabled(s, step)
    ensures Forward(s.world, Effect(cfg, s, step).world)
  {
    hide Looked, LookedBan, FilledStatus, FilledBan, Liked;
  }

  lemma PastCarries(past: seq<Seen>, now: Time, world: World, later: Time, next: World)
    requires PastOk(past, now) && WorldOk(past, world) && now <= later && Forward(world, next)
    ensures PastOk(past + [Seen(now, world)], later) && WorldOk(past + [Seen(now, world)], next)
  {
    var more := past + [Seen(now, world)];
    forall i | 0 <= i < |more| ensures Forward(more[i].world, next) {
      if i < |past| { assert Forward(past[i].world, world); }
    }
    forall i, j | 0 <= i < j < |more| ensures Forward(more[i].world, more[j].world) {
      if j < |past| { assert Forward(past[i].world, past[j].world); }
    }
  }

  /** A step takes nothing from the histories. */
  lemma HistoriesGrow(cfg: Config, s: State, step: Step)
    requires Enabled(s, step)
    ensures var t := Apply(cfg, s, step);
      s.past <= t.past && s.now <= t.now && s.fills <= t.fills && s.enforced <= t.enforced
  {
    hide Changed;
  }

  lemma Carried(cfg: Config, s: State, step: Step)
    requires Inv(cfg, s) && Enabled(s, step)
    ensures var t := Apply(cfg, s, step);
      && s.now <= t.now && PastOk(t.past, t.now) && WorldOk(t.past, t.world)
      && StatusesOk(cfg, t.past, t.fills, s.statuses) && BansOk(cfg, t.past, t.fills, t.enforced, s.bans)
      && CallsOk(cfg, t.past, t.now, s.calls, t.fills, t.enforced) && LikesOk(cfg, t.past, s.likes, t.fills)
  {
    hide PastOk, WorldOk, StatusesOk, BansOk, CallsOk, LikesOk, Effect, Forward;
    var t := Apply(cfg, s, step);
    HistoriesGrow(cfg, s, step);
    StepMovesForward(cfg, s, step);
    PastCarries(s.past, s.now, s.world, t.now, t.world);
    CachesCarry(cfg, s, t);
    CallsCarry(cfg, s, t);
    LikesCarry(cfg, s, t);
  }

  lemma FillKeepsStatuses(cfg: Config, s: State, step: Step)
    requires Inv(cfg, s) && Enabled(s, step) && step.FillStatus?
    ensures var t := Apply(cfg, s, step); StatusesOk(cfg, t.past, t.fills, t.statuses)
  {
    hide LikesOk, WorldOk, BansOk, BanReading;
    Carried(cfg, s, step);
    var t, c := Apply(cfg, s, step), s.calls[step.pid];
    assert CallOk(cfg, s.past, s.now, c, s.fills, s.enforced);
    if t.fills != s.fills { assert t.fills[|s.fills|] == Fill(c.room, None, c.started, s.now); }
  }

  lemma FillKeepsBans(cfg: Config, s: State, step: Step)
    requires Inv(cfg, s) && Enabled(s, step) && step.FillBan?
    ensures var t := Apply(cfg, s, step); BansOk(cfg, t.past, t.fills, t.enforced, t.bans)
  {
    hide LikesOk, WorldOk, StatusesOk, RoomReading;
    Carried(cfg, s, step);
    var t, c := Apply(cfg, s, step), s.calls[step.pid];
    assert CallOk(cfg, s.past, s.now, c, s.fills, s.enforced);
    if t.fills != s.fills { assert t.fills[|s.fills|] == Fill(c.room, Some(c.user), c.started, s.now); }
  }

  lemma StepKeepsCaches(cfg: Config, s: State, step: Step)
    requires Inv(cfg, s) && Enabled(s, step)
    ensures var t := Apply(cfg, s, step);
      StatusesOk(cfg, t.past, t.fills, t.statuses) && BansOk(cfg, t.past, t.fills, t.enforced, t.bans)
  {
    hide LikesOk, WorldOk, PastOk, CallsOk, Changed, RoomReading, BanReading;
    Carried(cfg, s, step);
    if step.FillStatus? { FillKeepsStatuses(cfg, s, step); }
    if step.FillBan? { FillKeepsBans(cfg, s, step); }
  }

  /** The steps of a call up to the known status of its room. */
  predicate StatusStep(step: Step) {
    step.Begin? || step.LookStatus? || step.ReadStatus? || step.FillStatus?
  }

  lemma StatusCallOk(cfg: Config, s: State, step: Step, pid: Pid)
    requires Inv(cfg, s) && Enabled(s, step) && StatusStep(step) && pid == step.pid
    ensures var t := Apply(cfg, s, step);
      pid in t.calls && CallOk(cfg, t.past, t.now, t.calls[pid], t.fills, t.enforced)
  {
    hide BansOk, LikesOk, WorldOk, Changed;
    Carried(cfg, s, step);
    if pid in s.calls { assert CallOk(cfg, s.past, s.now, s.calls[pid], s.fills, s.enforced); }
  }

  lemma BanCallOk(cfg: Config, s: State, step: Step, pid: Pid)
    requires Inv(cfg, s) && Enabled(s, step) && (step.LookBan? || step.ReadBan? || step.FillBan?) && pid == step.pid
    ensures var t := Apply(cfg, s, step);
      pid in t.calls && CallOk(cfg, t.past, t.now, t.calls[pid], t.fills, t.enforced)
  {
    hide StatusesOk, LikesOk, WorldOk, Changed, RoomReading, BansOk;
    Carried(cfg, s, step);
    var t := Apply(cfg, s, step);
    assert CallOk(cfg, t.past, t.now, s.calls[pid], t.fills, t.enforced);
    if step.LookBan? && BanCached(s, (s.calls[pid].room, s.calls[pid].user)) {
      BanHitOk(cfg, t.past, t.fills, (s.calls[pid].room, s.calls[pid].user), s.bans, s.now, s.calls[pid].started, t.enforced);
    }
  }

  /** A cached ban that has not expired is in time for a call that started before now. */
  lemma BanHitOk(cfg: Config, past: seq<Seen>, fills: seq<Fill>, key: (RoomId, UserId), bans: map<(RoomId, UserId), Entry<bool>>,
                 now: Time, started: Time, enforced: set<(RoomId, UserId)>)
    requires BansOk(cfg, past, fills, enforced, bans) && key in bans && Live(bans[key], now) && started <= now
    ensures BanGrounded(cfg, past, fills, enforced, key, bans[key].value, bans[key].from, started)
  {
  }

  /** The call a step advances: its new phase rests on readings that are fresh enough. */
  lemma MovedCallOk(cfg: Config, s: State, step: Step, pid: Pid)
    requires Inv(cfg, s) && Enabled(s, step) && pid in Apply(cfg, s, step).calls
    requires pid !in s.calls || Apply(cfg, s, step).calls[pid] != s.calls[pid]
    ensures var t := Apply(cfg, s, step); CallOk(cfg, t.past, t.now, t.calls[pid], t.fills, t.enforced)
  {
    hide StatusesOk, BansOk, LikesOk, WorldOk, Changed, RoomReading, BanReading;
    if StatusStep(step) {
      StatusCallOk(cfg, s, step, pid);
    } else if step.LookBan? || step.ReadBan? || step.FillBan? {
      BanCallOk(cfg, s, step, pid);
    } else {
      Carried(cfg, s, step);
      var t := Apply(cfg, s, step);
      if pid in s.calls { assert CallOk(cfg, t.past, t.now, s.calls[pid], t.fills, t.enforced); }
    }
  }

  lemma StepKeepsCalls(cfg: Config, s: State, step: Step)
    requires Inv(cfg, s) && Enabled(s, step)
    ensures var t := Apply(cfg, s, step); CallsOk(cfg, t.past, t.now, t.calls, t.fills, t.enforced)
  {
    hide CallOk, WorldOk, PastOk, StatusesOk, BansOk, LikesOk;
    Carried(cfg, s, step);
    var t := Apply(cfg, s, step);
    forall pid | pid in t.calls ensures CallOk(cfg, t.past, t.now, t.calls[pid], t.fills, t.enforced) {
      if pid !in s.calls || t.calls[pid] != s.calls[pid] { MovedCallOk(cfg, s, step, pid); }
    }
  }

  lemma StepKeepsLikes(cfg: Config, s: State, step: Step)
    requires Inv(cfg, s) && Enabled(s, step)
    ensures var t := Apply(cfg, s, step); LikesOk(cfg, t.past, t.likes, t.fills)
  {
    hide WorldOk, PastOk, StatusesOk, BansOk, Changed, RoomReading, BanReading;
    Carried(cfg, s, step);
    if step.AddLikes? {
      var t := Apply(cfg, s, step);
      assert CallOk(cfg, t.past, s.now, s.calls[step.pid], t.fills, t.enforced);
    }
  }

  lemma StepKeepsInv(cfg: Config, s: State, step: Step)
    requires Inv(cfg, s) && Enabled(s, step)
    ensures Inv(cfg, Apply(cfg, s, step))
  {
    Carried(cfg, s, step);
    StepKeepsCaches(cfg, s, step);
    StepKeepsCalls(cfg, s, step);
    StepKeepsLikes(cfg, s, step);
  }

  lemma {:induction false} RunKeepsInv(cfg: Config, run: seq<Step>)
    ensures Run(cfg, run).Some? ==> Inv(cfg, Run(cfg, run).value)
  {
    if run != [] && Run(cfg, run).Some? {
      var before := run[..|run| - 1];
      RunKeepsInv(cfg, before);
      StepKeepsInv(cfg, Run(cfg, before).value, run[|run| - 1]);
    }
  }
}
