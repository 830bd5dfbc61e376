/**
 The presence and pressure indexes of one room in internal/store/redisstore/redis.go: a ZSET of viewers scored
 by expiry, a ZSET of join times and a rolling ZSET of message ids. Entries are purged only when some script
 happens to run; what a script returns is nevertheless a function of the history of operations.

 A client reads its clock before the round trip, so operations may reach Redis in another order than their
 clocks: `at` is the client's reading, `ran` the instant at which Redis runs the script.
 */
module Presence {
  import opened Basics

  type UserId = int
  type MessageId = string

  /** The operations of a room in the order in which Redis runs them, times in milliseconds. */
  datatype Op =
    | Touch(user: UserId, at: Time, ttl: nat)
    | Leave(user: UserId)
    | Read(at: Time)
    | Danmaku(message: MessageId, at: Time, ran: Time)

  datatype Room = Room(
    viewers: map<UserId, Time>, joined: map<UserId, Time>, rate: map<MessageId, Time>, rateExpires: Time)

  function Empty(): Room {
    Room(map[], map[], map[], 0)
  }

  /** ZREMRANGEBYSCORE key -inf at */
  function Unexpired(viewers: map<UserId, Time>, at: Time): map<UserId, Time> {
    map u | u in viewers && viewers[u] > at :: viewers[u]
  }

  function WithoutUsers(m: map<UserId, Time>, users: set<UserId>): map<UserId, Time> {
    map u | u in m && u !in users :: m[u]
  }

  /** touchViewerScript: ZADD, ZADD NX, drop the expired users from both sets. */
  function TouchScript(r: Room, u: UserId, at: Time, expires: Time): Room {
    var viewers := r.viewers[u := expires];
    var joined := if u in r.joined then r.joined else r.joined[u := at];
    var expired := set v | v in viewers && viewers[v] <= at;
    r.(viewers := Unexpired(viewers, at), joined := WithoutUsers(joined, expired))
  }

  function LeaveScript(r: Room, u: UserId): Room {
    r.(viewers := WithoutUsers(r.viewers, {u}), joined := WithoutUsers(r.joined, {u}))
  }

  /** The purge of viewers shared by the snapshot and the pressure script; join times stay. */
  function PurgeScript(r: Room, at: Time): Room {
    r.(viewers := Unexpired(r.viewers, at))
  }

  /** The rolling part of danmakuPressureScript: the key is gone once its PEXPIRE has passed, at once if that is 0. */
  function RollScript(r: Room, m: MessageId, at: Time, ran: Time, window: nat): Room {
    var present := if ran >= r.rateExpires then map[] else r.rate;
    var kept := map k | k in present && present[k] + window > at :: present[k];
    r.(rate := if window == 0 then map[] else kept[m := at], rateExpires := ran + 2 * window)
  }

  function Apply(window: nat, r: Room, op: Op): Room {
    match op
    case Touch(u, at, ttl) => TouchScript(r, u, at, at + ttl)
    case Leave(u) => LeaveScript(r, u)
    case Read(at) => PurgeScript(r, at)
    case Danmaku(m, at, ran) => RollScript(PurgeScript(r, at), m, at, ran, window)
  }

  function After(window: nat, ops: seq<Op>): Room {
    if ops == [] then Empty() else Apply(window, After(window, ops[..|ops| - 1]), ops[|ops| - 1])
  }

  // ----- what the history says -----

  /** The operation that settles the user's presence: the last touch, if no leave followed it. */
  function LastTouch(ops: seq<Op>, u: UserId): (i: Option<nat>)
    ensures i.Some? ==> i.value < |ops| && ops[i.value].Touch? && ops[i.value].user == u
  {
    if ops == [] then None
    else match ops[|ops| - 1]
      case Touch(v, _, _) => if v == u then Some(|ops| - 1) else LastTouch(ops[..|ops| - 1], u)
      case Leave(v) => if v == u then None else LastTouch(ops[..|ops| - 1], u)
      case _ => LastTouch(ops[..|ops| - 1], u)
  }

  function Expiry(op: Op): Time
    requires op.Touch?
  {
    op.at + op.ttl
  }

  /** Every script but that of RemoveViewer drops the viewers who expired by its clock. */
  predicate Purges(op: Op) {
    !op.Leave?
  }

  /** No clock from the touch on has reached the expiry it set. */
  ghost predicate Unpurged(ops: seq<Op>, i: nat)
    requires i < |ops| && ops[i].Touch?
  {
    forall j :: i <= j < |ops| && Purges(ops[j]) ==> ops[j].at < Expiry(ops[i])
  }

  ghost predicate Present(ops: seq<Op>, u: UserId) {
    LastTouch(ops, u).Some? && Unpurged(ops, LastTouch(ops, u).value)
  }

  /** The user's last operation is a touch that has not expired at this instant. */
  ghost predicate Online(ops: seq<Op>, u: UserId, at: Time) {
    LastTouch(ops, u).Some? && Expiry(ops[LastTouch(ops, u).value]) > at
  }

  /** The first script whose clock reached the expiry. */
  ghost predicate FirstPurge(ops: seq<Op>, i: nat, j: nat)
    requires i < |ops| && ops[i].Touch?
  {
    && i <= j < |ops| && Purges(ops[j]) && ops[j].at >= Expiry(ops[i])
    && forall k :: i <= k < j && Purges(ops[k]) ==> ops[k].at < Expiry(ops[i])
  }

  /** Only a touch drops the join time along with the viewer. */
  ghost predicate KeepsJoinTime(ops: seq<Op>, i: nat)
    requires i < |ops| && ops[i].Touch?
  {
    forall j: nat :: FirstPurge(ops, i, j) ==> !ops[j].Touch?
  }

  /** Where the message id was last submitted. */
  function LastSubmission(ops: seq<Op>, m: MessageId): (i: Option<nat>)
    ensures i.Some? ==> i.value < |ops| && ops[i.value].Danmaku? && ops[i.value].message == m
  {
    if ops == [] then None
    else if ops[|ops| - 1].Danmaku? && ops[|ops| - 1].message == m then Some(|ops| - 1)
    else LastSubmission(ops[..|ops| - 1], m)
  }

  function LastDanmaku(ops: seq<Op>): (i: Option<nat>)
    ensures i.Some? ==> i.value < |ops| && ops[i.value].Danmaku?
    ensures i.None? ==> forall j :: 0 <= j < |ops| ==> !ops[j].Danmaku?
  {
    if ops == [] then None
    else if ops[|ops| - 1].Danmaku? then Some(|ops| - 1)
    else LastDanmaku(ops[..|ops| - 1])
  }

  /** The window of a submission is open for every later clock, and the key never expired in between. */
  ghost predicate Rolling(ops: seq<Op>, window: nat, i: nat)
    requires i < |ops| && ops[i].Danmaku?
  {
    forall j: nat :: i < j < |ops| ==> RollsPast(ops, window, i, j)
  }

  ghost predicate RollsPast(ops: seq<Op>, window: nat, i: nat, j: nat)
    requires i < j < |ops| && ops[i].Danmaku?
  {
    ops[j].Danmaku? ==>
      && ops[j].at < ops[i].at + window
      && LastDanmaku(ops[..j]).Some? && ops[j].ran < ops[LastDanmaku(ops[..j]).value].ran + 2 * window
  }

  ghost predicate Recent(ops: seq<Op>, window: nat, m: MessageId, at: Time) {
    LastSubmission(ops, m).Some? && ops[LastSubmission(ops, m).value].at + window > at
  }

  // ----- the lazily purged sets refine it -----

  ghost predicate ViewersOk(r: Room, ops: seq<Op>) {
    forall u ::
      && (u in r.viewers <==> Present(ops, u))
      && (u in r.viewers ==> r.viewers[u] == Expiry(ops[LastTouch(ops, u).value]))
  }

  /** What RateOk says of one message id. */
  ghost predicate MessageOk(window: nat, r: Room, ops: seq<Op>, m: MessageId) {
    && (m in r.rate <==> window >= 1 && LastSubmission(ops, m).Some? && Rolling(ops, window, LastSubmission(ops, m).value))
    && (m in r.rate ==> r.rate[m] == ops[LastSubmission(ops, m).value].at)
  }

  ghost predicate RateOk(window: nat, r: Room, ops: seq<Op>) {
    && (r.rateExpires == if LastDanmaku(ops).Some? then ops[LastDanmaku(ops).value].ran + 2 * window else 0)
    && forall m :: MessageOk(window, r, ops, m)
  }

  lemma UnpurgedNext(ops: seq<Op>, op: Op, i: nat)
    requires i < |ops| && ops[i].Touch?
    ensures Unpurged(ops + [op], i) <==> Unpurged(ops, i) && (Purges(op) ==> op.at < Expiry(ops[i]))
  {
    var more := ops + [op];
    assert more[|ops|] == op;
    if Unpurged(more, i) {
      forall j | i <= j < |ops| && Purges(ops[j]) ensures ops[j].at < Expiry(ops[i]) { assert more[j] == ops[j]; }
    }
  }

  lemma LastTouchNext(ops: seq<Op>, op: Op, u: UserId)
    ensures LastTouch(ops + [op], u) ==
      if op.Touch? && op.user == u then Some(|ops|) else if op.Leave? && op.user == u then None else LastTouch(ops, u)
  {
    assert (ops + [op])[..|ops|] == ops;
  }

  lemma StepKeepsViewers(window: nat, ops: seq<Op>, op: Op, r: Room)
    requires ViewersOk(r, ops)
    ensures ViewersOk(Apply(window, r, op), ops + [op])
  {
    var t, more := Apply(window, r, op), ops + [op];
    assert more[|ops|] == op;
    forall u
      ensures u in t.viewers <==> Present(more, u)
      ensures u in t.viewers ==> t.viewers[u] == Expiry(more[LastTouch(more, u).value])
    {
      LastTouchNext(ops, op, u);
      if LastTouch(ops, u).Some? { UnpurgedNext(ops, op, LastTouch(ops, u).value); }
    }
  }

  lemma RollsPastSame(ops: seq<Op>, op: Op, window: nat, i: nat, j: nat)
    requires i < j < |ops| && ops[i].Danmaku?
    ensures RollsPast(ops + [op], window, i, j) <==> RollsPast(ops, window, i, j)
  {
    assert (ops + [op])[..j] == ops[..j];
  }

  lemma RollingNext(ops: seq<Op>, op: Op, window: nat, i: nat)
    requires i < |ops| && ops[i].Danmaku?
    ensures Rolling(ops + [op], window, i) <==>
      Rolling(ops, window, i) &&
      (op.Danmaku? ==> op.at < ops[i].at + window && LastDanmaku(ops).Some? && op.ran < ops[LastDanmaku(ops).value].ran + 2 * window)
  {
    var more := ops + [op];
    assert more[..|ops|] == ops;
    forall j: nat | i < j < |ops| ensures RollsPast(more, window, i, j) <==> RollsPast(ops, window, i, j) {
      RollsPastSame(ops, op, window, i, j);
    }
    if Rolling(more, window, i) { assert RollsPast(more, window, i, |ops|); }
  }

  lemma RollingNow(ops: seq<Op>, op: Op, window: nat)
    requires op.Danmaku?
    ensures (ops + [op])[|ops|] == op && Rolling(ops + [op], window, |ops|)
  {
  }

  lemma SubmissionNext(ops: seq<Op>, op: Op, m: MessageId)
    ensures LastSubmission(ops + [op], m) == if op.Danmaku? && op.message == m then Some(|ops|) else LastSubmission(ops, m)
    ensures LastDanmaku(ops + [op]) == if op.Danmaku? then Some(|ops|) else LastDanmaku(ops)
  {
    assert (ops + [op])[..|ops|] == ops;
  }

  predicate RateStays(r: Room, op: Op, m: MessageId, window: nat)
    requires op.Danmaku?
  {
    m in r.rate && op.ran < r.rateExpires && op.at < r.rate[m] + window
  }

  lemma RateEffect(window: nat, r: Room, op: Op, m: MessageId)
    ensures var t := Apply(window, r, op);
      if !op.Danmaku? then t.rate == r.rate
      else
        && (m in t.rate <==> window >= 1 && (m == op.message || RateStays(r, op, m, window)))
        && (m in t.rate ==> t.rate[m] == if m == op.message then op.at else r.rate[m])
  {
  }

  lemma StepKeepsMessage(window: nat, ops: seq<Op>, op: Op, r: Room, m: MessageId)
    requires RateOk(window, r, ops)
    ensures MessageOk(window, Apply(window, r, op), ops + [op], m)
  {
    hide Rolling, Apply;
    assert MessageOk(window, r, ops, m);
    RateEffect(window, r, op, m);
    assert (ops + [op])[|ops|] == op;
    SubmissionNext(ops, op, m);
    if op.Danmaku? && op.message == m {
      RollingNow(ops, op, window);
    } else if LastSubmission(ops, m).Some? {
      RollingNext(ops, op, window, LastSubmission(ops, m).value);
    }
  }

  lemma StepKeepsRate(window: nat, ops: seq<Op>, op: Op, r: Room)
    requires RateOk(window, r, ops)
    ensures RateOk(window, Apply(window, r, op), ops + [op])
  {
    hide MessageOk;
    SubmissionNext(ops, op, "");
    forall m ensures MessageOk(window, Apply(window, r, op), ops + [op], m) {
      StepKeepsMessage(window, ops, op, r, m);
    }
  }

  /** Whatever the order of the clocks, the sets are exactly what the history says. */
  lemma {:induction false} IndexesRefineHistory(window: nat, ops: seq<Op>)
    ensures ViewersOk(After(window, ops), ops) && RateOk(window, After(window, ops), ops)
  {
    if ops != [] {
      var before, op := ops[..|ops| - 1], ops[|ops| - 1];
      IndexesRefineHistory(window, before);
      StepKeepsViewers(window, before, op, After(window, before));
      StepKeepsRate(window, before, op, After(window, before));
      assert before + [op] == ops;
    }
  }

  // ----- when the counts are those of the users online -----

  /** The clocks of the scripts that purge viewers reach Redis in order. */
  predicate InOrder(ops: seq<Op>) {
    forall i, j :: 0 <= i < j < |ops| && Purges(ops[i]) && Purges(ops[j]) ==> ops[i].at <= ops[j].at
  }

  /** Nobody who is online now was dropped by a script with a later clock. */
  ghost predicate Undisturbed(ops: seq<Op>, at: Time) {
    forall u :: Online(ops, u, at) ==> Unpurged(ops, LastTouch(ops, u).value)
  }

  /** Everybody counted is online; everybody online is counted exactly when no script with a later clock interfered. */
  ghost predicate CountsOnline(viewers: map<UserId, Time>, ops: seq<Op>, at: Time) {
    && (forall u :: u in viewers ==> Online(ops, u, at))
    && ((forall u :: u in viewers <==> Online(ops, u, at)) <==> Undisturbed(ops, at))
  }

  /** What the count after a touch, a snapshot or a pressure sample means. */
  lemma ViewerCountIsExactIff(window: nat, ops: seq<Op>)
    requires ops != [] && Purges(ops[|ops| - 1])
    ensures CountsOnline(After(window, ops).viewers, ops, ops[|ops| - 1].at)
  {
    IndexesRefineHistory(window, ops);
    var viewers, now := After(window, ops).viewers, ops[|ops| - 1].at;
    forall u ensures u in viewers <==> Online(ops, u, now) && Unpurged(ops, LastTouch(ops, u).value) {
      assert u in viewers <==> Present(ops, u);
    }
  }

  lemma InOrderIsUndisturbed(ops: seq<Op>)
    requires ops != [] && Purges(ops[|ops| - 1]) && InOrder(ops)
    ensures Undisturbed(ops, ops[|ops| - 1].at)
  {
  }

  /** Clocks that arrive in order are enough. */
  lemma ViewerCountIsExact(window: nat, ops: seq<Op>, u: UserId)
    requires ops != [] && Purges(ops[|ops| - 1]) && InOrder(ops)
    ensures u in After(window, ops).viewers <==> Online(ops, u, ops[|ops| - 1].at)
  {
    ViewerCountIsExactIff(window, ops);
    InOrderIsUndisturbed(ops);
  }

  /** A late clock misses a viewer: user 1 is online at 14, and the snapshot of 16 ran first. */
  lemma LateClockMissesViewer(window: nat)
    ensures var ops := [Touch(1, 10, 5), Read(16), Touch(2, 14, 5)];
      Online(ops, 1, 14) && 1 !in After(window, ops).viewers
  {
    var ops := [Touch(1, 10, 5), Read(16), Touch(2, 14, 5)];
    assert ops[..2] == [Touch(1, 10, 5), Read(16)] && ops[..2][..1] == [Touch(1, 10, 5)];
    assert LastTouch(ops[..2][..1], 1) == Some(0) && LastTouch(ops[..2], 1) == Some(0) && LastTouch(ops, 1) == Some(0);
    IndexesRefineHistory(window, ops);
    assert ops[1].at >= Expiry(ops[0]) && Purges(ops[1]);
  }

  /** RemoveViewer does not purge: at an instant no clock has passed, its count covers everybody online. */
  lemma LeaveCountCovers(window: nat, ops: seq<Op>, u: UserId, at: Time)
    requires forall j :: 0 <= j < |ops| && Purges(ops[j]) ==> ops[j].at <= at
    ensures Online(ops, u, at) ==> u in After(window, ops).viewers
    ensures u in After(window, ops).viewers ==> LastTouch(ops, u).Some?
  {
    IndexesRefineHistory(window, ops);
  }

  // ----- the rolling rate -----

  /** No recent submission was dropped by a script with a later clock or by the expiry of the key. */
  ghost predicate AllRolling(ops: seq<Op>, window: nat, at: Time) {
    forall m :: Recent(ops, window, m, at) ==> Rolling(ops, window, LastSubmission(ops, m).value)
  }

  /**
   Every id counted was submitted inside the window; the rolling set is exactly the distinct ids submitted inside
   it just when nothing dropped one of them too early. A window below a millisecond counts nothing.
   */
  ghost predicate CountsRecent(rate: map<MessageId, Time>, ops: seq<Op>, window: nat, at: Time) {
    if window == 0 then rate == map[]
    else
      && (forall m :: m in rate ==> Recent(ops, window, m, at))
      && ((forall m :: m in rate <==> Recent(ops, window, m, at)) <==> AllRolling(ops, window, at))
  }

  /** What the rate after a pressure sample means. */
  lemma RollingRateIsExactIff(window: nat, ops: seq<Op>)
    requires ops != [] && ops[|ops| - 1].Danmaku?
    ensures CountsRecent(After(window, ops).rate, ops, window, ops[|ops| - 1].at)
  {
    IndexesRefineHistory(window, ops);
    var rate, now := After(window, ops).rate, ops[|ops| - 1].at;
    forall m
      ensures m in rate <==> window >= 1 && Recent(ops, window, m, now) && Rolling(ops, window, LastSubmission(ops, m).value)
    {
      assert MessageOk(window, After(window, ops), ops, m);
      assert m in rate <==> window >= 1 && LastSubmission(ops, m).Some? && Rolling(ops, window, LastSubmission(ops, m).value);
    }
  }

  /** Each pressure script runs after its client read the clock and within one window of it. */
  predicate Swift(ops: seq<Op>, window: nat) {
    forall j :: 0 <= j < |ops| && ops[j].Danmaku? ==> ops[j].at <= ops[j].ran < ops[j].at + window
  }

  lemma SwiftIsRolling(ops: seq<Op>, window: nat, i: nat)
    requires ops != [] && ops[|ops| - 1].Danmaku? && InOrder(ops) && Swift(ops, window)
    requires i < |ops| && ops[i].Danmaku? && ops[i].at + window > ops[|ops| - 1].at
    ensures Rolling(ops, window, i)
  {
    forall j: nat | i < j < |ops| ensures RollsPast(ops, window, i, j) {
      assert ops[..j][i] == ops[i];
      LastDanmakuIsLater(ops[..j], i);
    }
  }

  lemma {:induction false} LastDanmakuIsLater(ops: seq<Op>, i: nat)
    requires i < |ops| && ops[i].Danmaku?
    ensures LastDanmaku(ops).Some? && i <= LastDanmaku(ops).value
  {
    if !ops[|ops| - 1].Danmaku? { LastDanmakuIsLater(ops[..|ops| - 1], i); }
  }

  /** Clocks that arrive in order and scripts that run within a window of theirs are enough. */
  lemma RollingRateIsExact(window: nat, ops: seq<Op>, m: MessageId)
    requires ops != [] && ops[|ops| - 1].Danmaku? && InOrder(ops) && Swift(ops, window)
    ensures m in After(window, ops).rate <==> Recent(ops, window, m, ops[|ops| - 1].at)
  {
    RollingRateIsExactIff(window, ops);
    forall k | Recent(ops, window, k, ops[|ops| - 1].at) ensures Rolling(ops, window, LastSubmission(ops, k).value) {
      SwiftIsRolling(ops, window, LastSubmission(ops, k).value);
    }
  }

  // ----- join times -----

  /** Everybody in the viewer set has a join time: the top list never reads a missing score for a live viewer. */
  lemma {:induction false} ViewersHaveJoinTimes(window: nat, ops: seq<Op>)
    ensures After(window, ops).viewers.Keys <= After(window, ops).joined.Keys
  {
    if ops != [] {
      ViewersHaveJoinTimes(window, ops[..|ops| - 1]);
    }
  }

  /**
   Join times follow sessions: a viewer who stays keeps it, a newcomer gets the time of the touch, and whoever a
   touch or a leave drops from the viewers loses it.
   */
  lemma JoinTimesFollowSessions(window: nat, ops: seq<Op>, op: Op, u: UserId)
    ensures var r, t := After(window, ops), After(window, ops + [op]);
      && (u in r.viewers && u in t.viewers ==> u in r.joined && u in t.joined && t.joined[u] == r.joined[u])
      && (u !in r.joined && u in t.joined ==> op.Touch? && op.user == u && t.joined[u] == op.at)
      && ((op.Touch? || op.Leave?) && u in r.viewers && u !in t.viewers ==> u !in t.joined)
  {
    ViewersHaveJoinTimes(window, ops);
    assert (ops + [op])[..|ops|] == ops;
  }

  /** The join time the last touch found or set. */
  ghost predicate JoinOk(window: nat, ops: seq<Op>, u: UserId) {
    var joined, i := After(window, ops).joined, LastTouch(ops, u);
    && (u in joined <==> i.Some? && KeepsJoinTime(ops, i.value))
    && (u in joined ==> var first := After(window, ops[..i.value + 1]).joined; u in first && joined[u] == first[u])
  }

  lemma KeepsJoinTimeNext(ops: seq<Op>, op: Op, i: nat)
    requires i < |ops| && ops[i].Touch?
    ensures KeepsJoinTime(ops + [op], i) <==>
      KeepsJoinTime(ops, i) && !(Unpurged(ops, i) && op.Touch? && op.at >= Expiry(ops[i]))
  {
    var more := ops + [op];
    assert more[|ops|] == op;
    forall j: nat | j < |ops| ensures FirstPurge(more, i, j) <==> FirstPurge(ops, i, j) {
      assert forall k :: 0 <= k <= j ==> more[k] == ops[k];
    }
    assert FirstPurge(more, i, |ops|) <==> Unpurged(ops, i) && Purges(op) && op.at >= Expiry(ops[i]) by {
      assert forall k :: 0 <= k < |ops| ==> more[k] == ops[k];
    }
    if KeepsJoinTime(more, i) {
      forall j: nat | FirstPurge(ops, i, j) ensures !ops[j].Touch? { assert FirstPurge(more, i, j); }
    }
  }

  lemma OwnTouchSetsJoin(window: nat, ops: seq<Op>, op: Op)
    requires op.Touch?
    ensures JoinOk(window, ops + [op], op.user)
  {
    var more := ops + [op];
    assert more[|ops|] == op && more[..|ops|] == ops && more[..|ops| + 1] == more;
    LastTouchNext(ops, op, op.user);
    assert FirstPurge(more, |ops|, |ops|) <==> op.ttl == 0;
    assert KeepsJoinTime(more, |ops|) <==> op.ttl > 0 by {
      if op.ttl == 0 { assert FirstPurge(more, |ops|, |ops|); }
    }
  }

  /** Somebody else's operation touches a user's join time only by dropping the expired viewer. */
  lemma JoinEffect(window: nat, r: Room, op: Op, u: UserId)
    requires !((op.Touch? || op.Leave?) && op.user == u)
    ensures u in Apply(window, r, op).joined <==> u in r.joined && !(op.Touch? && u in r.viewers && r.viewers[u] <= op.at)
    ensures u in Apply(window, r, op).joined ==> Apply(window, r, op).joined[u] == r.joined[u]
  {
  }

  lemma StepKeepsJoin(window: nat, ops: seq<Op>, op: Op, u: UserId)
    requires JoinOk(window, ops, u) && ViewersOk(After(window, ops), ops)
    ensures JoinOk(window, ops + [op], u)
  {
    hide FirstPurge, KeepsJoinTime, Unpurged, Apply;
    var more, i := ops + [op], LastTouch(ops, u);
    assert more[..|ops|] == ops;
    LastTouchNext(ops, op, u);
    if op.Touch? && op.user == u {
      OwnTouchSetsJoin(window, ops, op);
    } else if op.Leave? && op.user == u {
      assert After(window, more) == Apply(window, After(window, ops), op);
      LeaveDropsJoin(window, After(window, ops), u);
    } else {
      JoinEffect(window, After(window, ops), op, u);
      assert u in After(window, ops).viewers <==> Present(ops, u);
      if i.Some? {
        KeepsJoinTimeNext(ops, op, i.value);
        assert more[..i.value + 1] == ops[..i.value + 1];
      }
    }
  }

  lemma LeaveDropsJoin(window: nat, r: Room, u: UserId)
    ensures u !in Apply(window, r, Leave(u)).joined
  {
  }

  lemma {:induction false} JoinTimesRefineHistory(window: nat, ops: seq<Op>, u: UserId)
    ensures JoinOk(window, ops, u)
  {
    if ops != [] {
      var before, op := ops[..|ops| - 1], ops[|ops| - 1];
      JoinTimesRefineHistory(window, before, u);
      IndexesRefineHistory(window, before);
      StepKeepsJoin(window, before, op, u);
      assert before + [op] == ops;
    }
  }

  /** The session that has ended has a first script that ended it. */
  lemma EndedByFirstPurge(ops: seq<Op>, i: nat, j: nat) returns (k: nat)
    requires i < |ops| && ops[i].Touch? && i <= j < |ops| && Purges(ops[j]) && ops[j].at >= Expiry(ops[i])
    ensures FirstPurge(ops, i, k)
    ensures KeepsJoinTime(ops, i) <==> !ops[k].Touch?
    decreases j
  {
    if l :| i <= l < j && Purges(ops[l]) && ops[l].at >= Expiry(ops[i]) {
      k := EndedByFirstPurge(ops, i, l);
    } else {
      k := j;
      assert FirstPurge(ops, i, j);
    }
  }

  /**
   A viewer whose session has ended comes back. After a leave, or at the first visit, the join time starts anew. Else
   there is a first script that dropped the viewer, and it starts anew exactly when that script was a touch; after a
   snapshot or a pressure sample the old one stays.
   */
  lemma ReturningViewerJoinTime(window: nat, ops: seq<Op>, u: UserId, at: Time, ttl: nat) returns (k: nat)
    requires ttl > 0 && !Present(ops, u)
    ensures u in After(window, ops + [Touch(u, at, ttl)]).joined
    ensures LastTouch(ops, u).None? ==> After(window, ops + [Touch(u, at, ttl)]).joined[u] == at
    ensures LastTouch(ops, u).Some? ==> FirstPurge(ops, LastTouch(ops, u).value, k)
    ensures LastTouch(ops, u).Some? && ops[k].Touch? ==> After(window, ops + [Touch(u, at, ttl)]).joined[u] == at
    ensures LastTouch(ops, u).Some? && !ops[k].Touch? ==>
      var first := After(window, ops[..LastTouch(ops, u).value + 1]).joined;
      u in first && After(window, ops + [Touch(u, at, ttl)]).joined[u] == first[u]
  {
    hide FirstPurge, KeepsJoinTime;
    JoinTimesRefineHistory(window, ops, u);
    assert (ops + [Touch(u, at, ttl)])[..|ops|] == ops;
    k := 0;
    if LastTouch(ops, u).Some? {
      var i := LastTouch(ops, u).value;
      var j :| i <= j < |ops| && Purges(ops[j]) && ops[j].at >= Expiry(ops[i]);
      k := EndedByFirstPurge(ops, i, j);
    }
  }

  /** The store's methods: each runs one script against the room's keys. */
  class Store {
    const window: nat
    var room: Room
    ghost var ops: seq<Op>

    constructor (window: nat)
      ensures Valid() && ops == [] && this.window == window
    {
      this.window, room, ops := window, Empty(), [];
    }

    ghost predicate Valid()
      reads this
    {
      room == After(window, ops)
    }

    method Do(op: Op)
      requires Valid()
      modifies this
      ensures Valid() && ops == old(ops) + [op]
      ensures forall u :: u in room.viewers <==> Present(ops, u)
    {
      assert (ops + [op])[..|ops|] == ops;
      room, ops := Apply(window, room, op), ops + [op];
      IndexesRefineHistory(window, ops);
    }

    /** Redis may run other scripts between the clock reading and this one. */
    method Others()
      requires Valid()
      modifies this
      ensures Valid() && old(ops) <= ops
    {
    }

    method TouchViewer(user: UserId, now: Time, ttl: nat) returns (count: nat)
      requires Valid()
      modifies this
      ensures Valid() && old(ops) < ops && ops[|ops| - 1] == Touch(user, now, ttl)
      ensures count == |room.viewers| && forall u :: u in room.viewers <==> Present(ops, u)
      ensures CountsOnline(room.viewers, ops, now)
    {
      hide Apply, CountsOnline, Present;
      Others();
      Do(Touch(user, now, ttl));
      ViewerCountIsExactIff(window, ops);
      count := |room.viewers|;
    }

    /** No clock is involved: whoever expired since the last purge still counts. */
    method RemoveViewer(user: UserId) returns (count: nat)
      requires Valid()
      modifies this
      ensures Valid() && ops == old(ops) + [Leave(user)] && user !in room.viewers
      ensures count == |room.viewers| && forall u :: u in room.viewers <==> Present(ops, u)
    {
      Do(Leave(user));
      count := |room.viewers|;
    }

    method EngagementSnapshot(now: Time) returns (count: nat)
      requires Valid()
      modifies this
      ensures Valid() && old(ops) < ops && ops[|ops| - 1] == Read(now)
      ensures count == |room.viewers| && forall u :: u in room.viewers <==> Present(ops, u)
      ensures CountsOnline(room.viewers, ops, now)
    {
      hide Apply, CountsOnline, Present;
      Others();
      Do(Read(now));
      ViewerCountIsExactIff(window, ops);
      count := |room.viewers|;
    }

    /** `ran` is Redis's own clock. */
    method DanmakuPressure(message: MessageId, now: Time, ran: Time) returns (viewers: nat, rate: nat)
      requires Valid()
      modifies this
      ensures Valid() && old(ops) < ops && ops[|ops| - 1] == Danmaku(message, now, ran)
      ensures viewers == |room.viewers| && rate == |room.rate|
      ensures CountsOnline(room.viewers, ops, now)
      ensures CountsRecent(room.rate, ops, window, now)
    {
      hide Apply, CountsOnline, CountsRecent, Present;
      Others();
      Do(Danmaku(message, now, ran));
      ViewerCountIsExactIff(window, ops);
      RollingRateIsExactIff(window, ops);
      viewers, rate := |room.viewers|, |room.rate|;
    }
  }
}
