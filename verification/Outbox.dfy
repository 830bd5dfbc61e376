/**
 The leased outbox: rows of outbox_events moved to Kafka by any number of workers.

 The step system interleaves the individual database statements of every worker with the clock and with
 crashes. Claim is a transaction: its SELECT ... FOR UPDATE SKIP LOCKED takes row locks, its UPDATEs are
 private until COMMIT. The fields claims, failedAt and sent of a state record history and are never read
 by a step's guard.
 */
module Outbox {
  import opened Basics
  import opened Events

  type WorkerId = nat
  type RowId = nat

  const SECOND: nat := 1_000_000_000
  const MAX_DELAY: nat := 300 * SECOND

  /** The status column: 0, 1 and 2. */
  datatype Status = Pending | Published | Claimed

  datatype Row = Row(
    event: OutboxEvent,
    status: Status,
    retryCount: nat,
    nextRetryAt: Option<int>,
    lockedBy: Option<WorkerId>,
    lockedAt: Option<Time>)

  /** One committed Claim of a row: who, when its stale limit was read, what it wrote to locked_at. */
  datatype ClaimRecord = ClaimRecord(worker: WorkerId, clock: Time, lockedAt: Time, takeover: bool)

  /** A row a worker holds in memory; number is the position of its claim in the row's history. */
  datatype Open = Open(id: RowId, number: nat, retryRead: nat)

  datatype Phase = Unsent | Acked | Refused

  datatype Worker =
    | Claiming(clock: Time, ids: seq<RowId>, done: nat, stamps: map<RowId, Time>)
    | Dispatching(todo: seq<Open>, phase: Phase)

  /** One copy of a row's event handed to Kafka under one claim. */
  datatype Copy = Copy(id: RowId, number: nat)

  /** When a failure was marked, by the worker's clock, and the delay it asked for. */
  datatype Failure = Failure(at: Time, delay: int)

  /** A worker without an entry is idle. */
  datatype State = State(
    now: Time,
    rows: map<RowId, Row>,
    workers: map<WorkerId, Worker>,
    claims: map<RowId, seq<ClaimRecord>>,
    failedAt: map<RowId, Failure>,
    sent: seq<Copy>,
    limbo: set<Copy>)

  datatype Config = Config(lease: nat, batch: int)

  datatype Step =
    | Tick(elapsed: nat)
    | Insert(id: RowId, event: OutboxEvent, at: Time)
    | Select(w: WorkerId, clock: Time, ids: seq<RowId>)
    | Stamp(w: WorkerId)
    | CommitClaim(w: WorkerId, acked: bool)
    | AbortClaim(w: WorkerId)
    | Produce(w: WorkerId, acked: bool, delivered: bool)
    | LateDelivery(copy: Copy)
    | MarkPublished(w: WorkerId, executed: bool)
    | MarkFailed(w: WorkerId, clock: Time, delay: int, executed: bool)
    | Crash(w: WorkerId)

  function Init(): State {
    State(0, map[], map[], map[], map[], [], {})
  }

  // ----- the pieces of the statements -----

  function Limit(cfg: Config): nat {
    if cfg.batch <= 0 then 100 else cfg.batch
  }

  function Pow2(n: nat): (p: nat)
    ensures p >= 1
  {
    if n == 0 then 1 else 2 * Pow2(n - 1)
  }

  /** Exponential back-off, one second doubled per attempt and capped at five minutes. */
  function Backoff(attempt: int): nat {
    if attempt < 1 then SECOND
    else if Pow2(attempt - 1) * SECOND > MAX_DELAY then MAX_DELAY
    else Pow2(attempt - 1) * SECOND
  }

  /** The WHERE clause of Claim's SELECT; clock is the client time from which the stale limit is computed. */
  predicate Eligible(cfg: Config, row: Row, now: Time, clock: Time) {
    || (row.status == Pending && (row.nextRetryAt == None || row.nextRetryAt.value <= now))
    || (row.status == Claimed && row.lockedAt.Some? && row.lockedAt.value + cfg.lease < clock)
  }

  predicate Locks(s: State, w: WorkerId, id: RowId) {
    w in s.workers && s.workers[w].Claiming? && id in s.workers[w].ids
  }

  predicate Locked(s: State, id: RowId) {
    exists w | w in s.workers :: Locks(s, w, id)
  }

  function Candidates(cfg: Config, s: State, clock: Time): set<RowId> {
    set id | id in s.rows && Eligible(cfg, s.rows[id], s.now, clock) && !Locked(s, id)
  }

  predicate Holds(row: Row, w: WorkerId) {
    row.status == Claimed && row.lockedBy == Some(w)
  }

  function Idle(s: State, w: WorkerId): State {
    s.(workers := map v | v in s.workers && v != w :: s.workers[v])
  }

  /** The worker is done with the head of its batch. */
  function Advance(s: State, w: WorkerId): State
    requires w in s.workers && s.workers[w].Dispatching? && s.workers[w].todo != []
  {
    var todo := s.workers[w].todo[1..];
    if todo == [] then Idle(s, w) else s.(workers := s.workers[w := Dispatching(todo, Unsent)])
  }

  predicate HasHead(s: State, w: WorkerId, phase: Phase) {
    w in s.workers && s.workers[w].Dispatching? && s.workers[w].todo != [] && s.workers[w].phase == phase
  }

  function Head(s: State, w: WorkerId): Open
    requires w in s.workers && s.workers[w].Dispatching? && s.workers[w].todo != []
  {
    s.workers[w].todo[0]
  }

  function ClaimedRow(row: Row, w: WorkerId, at: Time): Row {
    row.(status := Claimed, lockedBy := Some(w), lockedAt := Some(at))
  }

  function PublishedRow(row: Row): Row {
    row.(status := Published, lockedBy := None, lockedAt := None)
  }

  function FailedRow(row: Row, next: int): Row {
    row.(status := Pending, retryCount := row.retryCount + 1, nextRetryAt := Some(next), lockedBy := None, lockedAt := None)
  }

  // ----- the step system -----

  ghost predicate Enabled(cfg: Config, s: State, step: Step) {
    match step
    case Tick(_) => true
    case Insert(id, _, at) => id !in s.rows && at <= s.now
    case Select(w, clock, ids) =>
      w !in s.workers && clock <= s.now && ids != [] && IsSmallest(ids, Candidates(cfg, s, clock), Limit(cfg))
    case Stamp(w) =>
      w in s.workers && s.workers[w].Claiming? && s.workers[w].done < |s.workers[w].ids|
    case CommitClaim(w, _) =>
      && w in s.workers && s.workers[w].Claiming? && s.workers[w].done == |s.workers[w].ids|
      && (forall id :: id in s.workers[w].ids ==> id in s.rows && id in s.claims && id in s.workers[w].stamps)
    case AbortClaim(w) => w in s.workers && s.workers[w].Claiming?
    case Produce(w, acked, delivered) => HasHead(s, w, Unsent) && (acked ==> delivered)
    case LateDelivery(copy) => copy in s.limbo
    case MarkPublished(w, executed) =>
      HasHead(s, w, Acked) && (executed ==> Head(s, w).id in s.rows && !Locked(s, Head(s, w).id))
    case MarkFailed(w, clock, delay, executed) =>
      HasHead(s, w, Refused) && clock <= s.now && (executed ==> Head(s, w).id in s.rows && !Locked(s, Head(s, w).id))
    case Crash(w) => w in s.workers
  }

  function CommitRows(s: State, w: WorkerId): map<RowId, Row>
    requires w in s.workers && s.workers[w].Claiming?
    requires forall id :: id in s.workers[w].ids ==> id in s.rows && id in s.workers[w].stamps
  {
    map id | id in s.rows ::
      if id in s.workers[w].ids then ClaimedRow(s.rows[id], w, s.workers[w].stamps[id]) else s.rows[id]
  }

  function CommitClaims(s: State, w: WorkerId): map<RowId, seq<ClaimRecord>>
    requires w in s.workers && s.workers[w].Claiming?
    requires forall id :: id in s.workers[w].ids ==> id in s.rows && id in s.claims && id in s.workers[w].stamps
  {
    map id | id in s.claims ::
      if id in s.workers[w].ids
      then s.claims[id] + [ClaimRecord(w, s.workers[w].clock, s.workers[w].stamps[id], s.rows[id].status == Claimed)]
      else s.claims[id]
  }

  /** The events Claim returns, with the retry_count its SELECT read. */
  function Returned(s: State, w: WorkerId): (todo: seq<Open>)
    requires w in s.workers && s.workers[w].Claiming?
    requires forall id :: id in s.workers[w].ids ==> id in s.rows && id in s.claims
    ensures |todo| == |s.workers[w].ids|
  {
    var ids := s.workers[w].ids;
    seq(|ids|, i requires 0 <= i < |ids| => Open(ids[i], |s.claims[ids[i]]|, s.rows[ids[i]].retryCount))
  }

  /** The claim is in the table; the worker does not know it yet. */
  function Committed(s: State, w: WorkerId): State
    requires w in s.workers && s.workers[w].Claiming?
    requires forall id :: id in s.workers[w].ids ==> id in s.rows && id in s.claims && id in s.workers[w].stamps
  {
    Idle(s, w).(rows := CommitRows(s, w), claims := CommitClaims(s, w))
  }

  function AfterPublished(s: State, w: WorkerId): State
    requires HasHead(s, w, Acked) && Head(s, w).id in s.rows
  {
    var id := Head(s, w).id;
    if Holds(s.rows[id], w) then Advance(s, w).(rows := s.rows[id := PublishedRow(s.rows[id])]) else Advance(s, w)
  }

  function AfterFailed(s: State, w: WorkerId, clock: Time, delay: int): State
    requires HasHead(s, w, Refused) && Head(s, w).id in s.rows
  {
    var o := Head(s, w);
    if Holds(s.rows[o.id], w)
    then Advance(s, w).(rows := s.rows[o.id := FailedRow(s.rows[o.id], clock + delay)],
                        failedAt := s.failedAt[o.id := Failure(clock, delay)])
    else Advance(s, w)
  }

  function Apply(cfg: Config, s: State, step: Step): State
    requires Enabled(cfg, s, step)
  {
    match step
    case Tick(d) => s.(now := s.now + d)
    case Insert(id, event, at) =>
      s.(rows := s.rows[id := Row(event, Pending, 0, Some(at), None, None)], claims := s.claims[id := []])
    case Select(w, clock, ids) =>
      s.(workers := s.workers[w := Claiming(clock, ids, 0, map[])])
    case Stamp(w) =>
      var c := s.workers[w];
      s.(workers := s.workers[w := c.(done := c.done + 1, stamps := c.stamps[c.ids[c.done] := s.now])])
    case CommitClaim(w, acked) =>
      if acked then Committed(s, w).(workers := s.workers[w := Dispatching(Returned(s, w), Unsent)]) else Committed(s, w)
    case AbortClaim(w) => Idle(s, w)
    case Produce(w, acked, delivered) =>
      var copy := Copy(Head(s, w).id, Head(s, w).number);
      var t := s.(workers := s.workers[w := s.workers[w].(phase := if acked then Acked else Refused)]);
      if delivered then t.(sent := s.sent + [copy]) else t.(limbo := s.limbo + {copy})
    case LateDelivery(copy) => s.(sent := s.sent + [copy], limbo := s.limbo - {copy})
    case MarkPublished(w, executed) => if executed then AfterPublished(s, w) else Advance(s, w)
    case MarkFailed(w, clock, delay, executed) => if executed then AfterFailed(s, w, clock, delay) else Advance(s, w)
    case Crash(w) => Idle(s, w)
  }

  /** The state a run leads to from the empty table, or None when some step of it was not enabled. */
  ghost function Run(cfg: Config, run: seq<Step>): Option<State> {
    if run == [] then Some(Init())
    else match Run(cfg, run[..|run| - 1])
      case None => None
      case Some(s) => if Enabled(cfg, s, run[|run| - 1]) then Some(Apply(cfg, s, run[|run| - 1])) else None
  }

  // ----- the inductive invariant -----

  function Takeovers(cl: seq<ClaimRecord>): nat {
    if cl == [] then 0 else Takeovers(cl[..|cl| - 1]) + (if cl[|cl| - 1].takeover then 1 else 0)
  }

  ghost predicate Delivered(sent: seq<Copy>, id: RowId) {
    exists i :: 0 <= i < |sent| && sent[i].id == id
  }

  /** What the columns of a row say about its claims. */
  ghost predicate RowOk(row: Row, cl: seq<ClaimRecord>) {
    && |cl| == row.retryCount + Takeovers(cl) + (if row.status == Pending then 0 else 1)
    && (row.status == Claimed ==>
          cl != [] && row.lockedBy == Some(cl[|cl| - 1].worker) && row.lockedAt == Some(cl[|cl| - 1].lockedAt))
    && (row.status != Claimed ==> row.lockedBy == None && row.lockedAt == None)
  }

  ghost predicate RowsOk(rows: map<RowId, Row>, claims: map<RowId, seq<ClaimRecord>>) {
    claims.Keys == rows.Keys && forall id :: id in rows ==> RowOk(rows[id], claims[id])
  }

  /** A pending row that failed before waits for the delay its last failure asked for. */
  ghost predicate BackoffOk(rows: map<RowId, Row>, failedAt: map<RowId, Failure>) {
    forall id :: id in rows && rows[id].status == Pending && rows[id].retryCount > 0 ==>
      id in failedAt && rows[id].nextRetryAt == Some(failedAt[id].at + failedAt[id].delay)
  }

  ghost predicate PublishedOk(rows: map<RowId, Row>, sent: seq<Copy>) {
    forall id :: id in rows && rows[id].status == Published ==> Delivered(sent, id)
  }

  /** Takeovers happen only after the lease of the claim they take over. */
  ghost predicate ChainOk(lease: nat, now: Time, cl: seq<ClaimRecord>) {
    && (forall j :: 0 <= j < |cl| ==> cl[j].clock <= cl[j].lockedAt <= now)
    && (forall j :: 0 < j < |cl| && cl[j].takeover ==> cl[j - 1].lockedAt + lease < cl[j].clock)
  }

  ghost predicate ChainsOk(lease: nat, now: Time, claims: map<RowId, seq<ClaimRecord>>) {
    forall id :: id in claims ==> ChainOk(lease, now, claims[id])
  }

  /** The rows a Claim transaction has locked stay exactly as its SELECT found them. */
  ghost predicate ClaimingOk(cfg: Config, rows: map<RowId, Row>, now: Time, c: Worker)
    requires c.Claiming?
  {
    && c.clock <= now && c.done <= |c.ids| && c.ids != []
    && (forall i, j :: 0 <= i < j < |c.ids| ==> c.ids[i] < c.ids[j])
    && (forall id :: id in c.ids ==> id in rows && Eligible(cfg, rows[id], now, c.clock))
    && (forall i :: 0 <= i < c.done ==> c.ids[i] in c.stamps)
    && (forall id :: id in c.stamps ==> c.clock <= c.stamps[id] <= now)
  }

  ghost predicate ClaimsOk(cfg: Config, rows: map<RowId, Row>, now: Time, workers: map<WorkerId, Worker>) {
    forall w :: w in workers && workers[w].Claiming? ==> ClaimingOk(cfg, rows, now, workers[w])
  }

  ghost predicate LocksExclusive(workers: map<WorkerId, Worker>) {
    forall v, w, id ::
      (v in workers && workers[v].Claiming? && w in workers && workers[w].Claiming? &&
       id in workers[v].ids && id in workers[w].ids) ==> v == w
  }

  /** A claim in a worker's memory is either the current one, and then the row has not moved, or overtaken. */
  ghost predicate OpenOk(row: Row, cl: seq<ClaimRecord>, w: WorkerId, o: Open) {
    && o.number < |cl|
    && cl[o.number].worker == w
    && (o.number == |cl| - 1 ==> Holds(row, w) && row.retryCount == o.retryRead)
    && (o.number < |cl| - 1 ==> cl[o.number + 1].takeover)
    && (forall j :: o.number < j < |cl| ==> cl[j].worker != w)
  }

  ghost predicate OpensOk(rows: map<RowId, Row>, claims: map<RowId, seq<ClaimRecord>>, workers: map<WorkerId, Worker>) {
    forall w, o :: w in workers && workers[w].Dispatching? && o in workers[w].todo ==>
      o.id in rows && o.id in claims && OpenOk(rows[o.id], claims[o.id], w, o)
  }

  /** Which claims of a batch have already put a copy on its way. */
  ghost predicate BatchOk(sent: seq<Copy>, limbo: set<Copy>, d: Worker)
    requires d.Dispatching?
  {
    && d.todo != []
    && (forall i, j :: 0 <= i < j < |d.todo| ==> d.todo[i].id != d.todo[j].id)
    && (forall i :: (if d.phase == Unsent then 0 else 1) <= i < |d.todo| ==>
          CopyOf(d.todo[i]) !in sent && CopyOf(d.todo[i]) !in limbo)
    && (d.phase == Acked ==> CopyOf(d.todo[0]) in sent)
  }

  function CopyOf(o: Open): Copy { Copy(o.id, o.number) }

  ghost predicate BatchesOk(sent: seq<Copy>, limbo: set<Copy>, workers: map<WorkerId, Worker>) {
    forall w :: w in workers && workers[w].Dispatching? ==> BatchOk(sent, limbo, workers[w])
  }

  /** Each copy belongs to one claim, and no claim has two. */
  ghost predicate CopiesOk(claims: map<RowId, seq<ClaimRecord>>, sent: seq<Copy>, limbo: set<Copy>) {
    && (forall i, j :: 0 <= i < j < |sent| ==> sent[i] != sent[j])
    && (forall c :: c in sent ==> c !in limbo)
    && (forall c :: c in sent || c in limbo ==> c.id in claims && c.number < |claims[c.id]|)
  }

  ghost predicate Inv(cfg: Config, s: State) {
    && RowsOk(s.rows, s.claims)
    && BackoffOk(s.rows, s.failedAt)
    && PublishedOk(s.rows, s.sent)
    && ChainsOk(cfg.lease, s.now, s.claims)
    && ClaimsOk(cfg, s.rows, s.now, s.workers)
    && LocksExclusive(s.workers)
    && OpensOk(s.rows, s.claims, s.workers)
    && BatchesOk(s.sent, s.limbo, s.workers)
    && CopiesOk(s.claims, s.sent, s.limbo)
  }

  // ----- every step keeps it -----

  lemma TickKeepsInv(cfg: Config, s: State, d: nat)
    requires Inv(cfg, s)
    ensures Inv(cfg, Apply(cfg, s, Tick(d)))
  {
  }

  lemma FreshRow(rows: map<RowId, Row>, claims: map<RowId, seq<ClaimRecord>>, id: RowId, row: Row)
    requires RowsOk(rows, claims) && id !in rows && RowOk(row, [])
    ensures RowsOk(rows[id := row], claims[id := []]) && id !in claims
  {
  }

  lemma FreshHistory(rows: map<RowId, Row>, failedAt: map<RowId, Failure>, sent: seq<Copy>, id: RowId, row: Row)
    requires BackoffOk(rows, failedAt) && PublishedOk(rows, sent) && row.status == Pending && row.retryCount == 0
    ensures BackoffOk(rows[id := row], failedAt) && PublishedOk(rows[id := row], sent)
  {
  }

  lemma FreshClaims(lease: nat, now: Time, claims: map<RowId, seq<ClaimRecord>>, id: RowId, sent: seq<Copy>, limbo: set<Copy>)
    requires ChainsOk(lease, now, claims) && CopiesOk(claims, sent, limbo) && id !in claims
    ensures ChainsOk(lease, now, claims[id := []]) && CopiesOk(claims[id := []], sent, limbo)
  {
  }

  lemma FreshIsUnknown(cfg: Config, s: State, id: RowId, row: Row)
    requires ClaimsOk(cfg, s.rows, s.now, s.workers) && OpensOk(s.rows, s.claims, s.workers) && id !in s.rows
    ensures ClaimsOk(cfg, s.rows[id := row], s.now, s.workers)
    ensures OpensOk(s.rows[id := row], s.claims[id := []], s.workers)
  {
  }

  lemma InsertKeepsInv(cfg: Config, s: State, step: Step)
    requires Inv(cfg, s) && step.Insert? && Enabled(cfg, s, step)
    ensures Inv(cfg, Apply(cfg, s, step))
  {
    hide RowsOk, BackoffOk, PublishedOk, ChainsOk, ClaimsOk, LocksExclusive, OpensOk, BatchesOk, CopiesOk;
    var row := Row(step.event, Pending, 0, Some(step.at), None, None);
    FreshRow(s.rows, s.claims, step.id, row);
    FreshHistory(s.rows, s.failedAt, s.sent, step.id, row);
    FreshClaims(cfg.lease, s.now, s.claims, step.id, s.sent, s.limbo);
    FreshIsUnknown(cfg, s, step.id, row);
  }

  lemma SelectKeepsInv(cfg: Config, s: State, step: Step)
    requires Inv(cfg, s) && step.Select? && Enabled(cfg, s, step)
    ensures Inv(cfg, Apply(cfg, s, step))
  {
    hide RowsOk, BackoffOk, PublishedOk, ChainsOk, CopiesOk, OpenOk, BatchOk;
  }

  lemma StampKeepsInv(cfg: Config, s: State, step: Step)
    requires Inv(cfg, s) && step.Stamp? && Enabled(cfg, s, step)
    ensures Inv(cfg, Apply(cfg, s, step))
  {
    hide RowsOk, BackoffOk, PublishedOk, ChainsOk, CopiesOk, OpenOk, BatchOk;
  }

  lemma TakeoversGrow(cl: seq<ClaimRecord>, c: ClaimRecord)
    ensures Takeovers(cl + [c]) == Takeovers(cl) + if c.takeover then 1 else 0
  {
    assert (cl + [c])[..|cl|] == cl;
  }

  lemma ClaimKeepsRow(cfg: Config, row: Row, cl: seq<ClaimRecord>, w: WorkerId, now: Time, clock: Time, at: Time)
    requires RowOk(row, cl) && ChainOk(cfg.lease, now, cl)
    requires Eligible(cfg, row, now, clock) && clock <= at <= now
    ensures var cl' := cl + [ClaimRecord(w, clock, at, row.status == Claimed)];
      RowOk(ClaimedRow(row, w, at), cl') && ChainOk(cfg.lease, now, cl')
  {
    TakeoversGrow(cl, ClaimRecord(w, clock, at, row.status == Claimed));
  }

  lemma CommitKeepsTables(cfg: Config, s: State, w: WorkerId)
    requires Inv(cfg, s) && Enabled(cfg, s, CommitClaim(w, true))
    ensures RowsOk(CommitRows(s, w), CommitClaims(s, w))
    ensures ChainsOk(cfg.lease, s.now, CommitClaims(s, w))
  {
    var rows, claims, c := CommitRows(s, w), CommitClaims(s, w), s.workers[w];
    assert ClaimingOk(cfg, s.rows, s.now, c);
    forall id | id in rows ensures RowOk(rows[id], claims[id]) && ChainOk(cfg.lease, s.now, claims[id]) {
      if id in c.ids {
        ClaimKeepsRow(cfg, s.rows[id], s.claims[id], w, s.now, c.clock, c.stamps[id]);
      }
    }
  }

  lemma CommitKeepsHistory(cfg: Config, s: State, w: WorkerId)
    requires Inv(cfg, s) && Enabled(cfg, s, CommitClaim(w, true))
    ensures BackoffOk(CommitRows(s, w), s.failedAt) && PublishedOk(CommitRows(s, w), s.sent)
    ensures CopiesOk(CommitClaims(s, w), s.sent, s.limbo)
  {
    hide ChainsOk, LocksExclusive, OpensOk, BatchesOk;
  }

  /** Claims already open on the rows are overtaken; nobody else's transaction holds those rows. */
  lemma CommitKeepsOthers(cfg: Config, s: State, w: WorkerId)
    requires Inv(cfg, s) && Enabled(cfg, s, CommitClaim(w, true))
    ensures var a := Idle(s, w).workers;
      ClaimsOk(cfg, CommitRows(s, w), s.now, a) && OpensOk(CommitRows(s, w), CommitClaims(s, w), a)
  {
    hide BackoffOk, PublishedOk, ChainsOk, BatchesOk, CopiesOk;
    var a, rows, claims := Idle(s, w).workers, CommitRows(s, w), CommitClaims(s, w);
    forall v | v in a && a[v].Claiming? ensures ClaimingOk(cfg, rows, s.now, a[v]) {
      assert ClaimingOk(cfg, s.rows, s.now, s.workers[v]);
      forall id | id in a[v].ids ensures rows[id] == s.rows[id] {}
    }
    forall v, o | v in a && a[v].Dispatching? && o in a[v].todo
      ensures o.id in rows && o.id in claims && OpenOk(rows[o.id], claims[o.id], v, o)
    {
      assert OpenOk(s.rows[o.id], s.claims[o.id], v, o);
    }
  }

  lemma CommitOpens(cfg: Config, s: State, w: WorkerId)
    requires Inv(cfg, s) && Enabled(cfg, s, CommitClaim(w, true))
    ensures var d := Dispatching(Returned(s, w), Unsent);
      && (forall o :: o in d.todo ==>
            o.id in s.workers[w].ids && OpenOk(CommitRows(s, w)[o.id], CommitClaims(s, w)[o.id], w, o))
      && (BatchOk(s.sent, s.limbo, d))
  {
    hide BackoffOk, PublishedOk, LocksExclusive, BatchesOk;
    var d := Dispatching(Returned(s, w), Unsent);
    assert ClaimingOk(cfg, s.rows, s.now, s.workers[w]);
    forall i | 0 <= i < |d.todo| ensures CopyOf(d.todo[i]) !in s.sent && CopyOf(d.todo[i]) !in s.limbo {
      assert d.todo[i].number == |s.claims[d.todo[i].id]|;
    }
  }

  lemma AddBatch(cfg: Config, t: State, w: WorkerId, d: Worker)
    requires Inv(cfg, t) && w !in t.workers && d.Dispatching? && BatchOk(t.sent, t.limbo, d)
    requires forall o :: o in d.todo ==> o.id in t.rows && OpenOk(t.rows[o.id], t.claims[o.id], w, o)
    ensures Inv(cfg, t.(workers := t.workers[w := d]))
  {
    hide BackoffOk, PublishedOk, ChainsOk, CopiesOk, RowOk, OpenOk, BatchOk, ClaimingOk;
  }

  lemma CommittedKeepsInv(cfg: Config, s: State, w: WorkerId)
    requires Inv(cfg, s) && Enabled(cfg, s, CommitClaim(w, true))
    ensures Inv(cfg, Committed(s, w))
  {
    hide RowsOk, BackoffOk, PublishedOk, ChainsOk, ClaimsOk, OpensOk, CopiesOk;
    CommitKeepsTables(cfg, s, w);
    CommitKeepsHistory(cfg, s, w);
    CommitKeepsOthers(cfg, s, w);
    IdleKeepsInv(cfg, s, w);
  }

  lemma CommitKeepsInv(cfg: Config, s: State, w: WorkerId)
    requires Inv(cfg, s) && Enabled(cfg, s, CommitClaim(w, true))
    ensures Inv(cfg, Apply(cfg, s, CommitClaim(w, true)))
  {
    CommittedKeepsInv(cfg, s, w);
    CommitOpens(cfg, s, w);
    var d := Dispatching(Returned(s, w), Unsent);
    AddBatch(cfg, Committed(s, w), w, d);
    assert Committed(s, w).workers[w := d] == s.workers[w := d];
  }

  lemma IdleKeepsInv(cfg: Config, s: State, w: WorkerId)
    requires Inv(cfg, s)
    ensures Inv(cfg, Idle(s, w))
  {
  }

  lemma SentGrows(s: State, c: Copy)
    requires PublishedOk(s.rows, s.sent)
    ensures PublishedOk(s.rows, s.sent + [c])
  {
    forall id | id in s.rows && s.rows[id].status == Published ensures Delivered(s.sent + [c], id) {
      var i :| 0 <= i < |s.sent| && s.sent[i].id == id;
      assert (s.sent + [c])[i].id == id;
    }
  }

  /** Two open claims never share a copy, whoever holds them. */
  lemma OpenCopiesDiffer(s: State, v: WorkerId, o: Open, w: WorkerId, p: Open)
    requires OpensOk(s.rows, s.claims, s.workers) && v != w
    requires v in s.workers && s.workers[v].Dispatching? && o in s.workers[v].todo
    requires w in s.workers && s.workers[w].Dispatching? && p in s.workers[w].todo
    ensures CopyOf(o) != CopyOf(p)
  {
    assert s.claims[o.id][o.number].worker == v;
    assert s.claims[p.id][p.number].worker == w;
  }

  lemma ProduceKeepsBatches(cfg: Config, s: State, step: Step)
    requires Inv(cfg, s) && step.Produce? && Enabled(cfg, s, step)
    ensures var t := Apply(cfg, s, step); BatchesOk(t.sent, t.limbo, t.workers)
  {
    hide RowsOk, BackoffOk, PublishedOk, ChainsOk, ClaimsOk, LocksExclusive, CopiesOk;
    var t, w := Apply(cfg, s, step), step.w;
    forall v | v in t.workers && t.workers[v].Dispatching? ensures BatchOk(t.sent, t.limbo, t.workers[v]) {
      assert BatchOk(s.sent, s.limbo, s.workers[v]);
      if v != w {
        forall i | 0 <= i < |s.workers[v].todo|
          ensures CopyOf(s.workers[v].todo[i]) != CopyOf(Head(s, w)) {
          OpenCopiesDiffer(s, v, s.workers[v].todo[i], w, Head(s, w));
        }
      }
    }
  }

  lemma ProduceKeepsInv(cfg: Config, s: State, step: Step)
    requires Inv(cfg, s) && step.Produce? && Enabled(cfg, s, step)
    ensures Inv(cfg, Apply(cfg, s, step))
  {
    hide RowsOk, BackoffOk, ChainsOk, PublishedOk, ClaimingOk;
    ProduceKeepsBatches(cfg, s, step);
    SentGrows(s, CopyOf(Head(s, step.w)));
  }

  lemma LateDeliveryKeepsInv(cfg: Config, s: State, step: Step)
    requires Inv(cfg, s) && step.LateDelivery? && Enabled(cfg, s, step)
    ensures Inv(cfg, Apply(cfg, s, step))
  {
    hide RowsOk, BackoffOk, PublishedOk, ChainsOk, ClaimsOk, LocksExclusive, OpensOk;
    SentGrows(s, step.copy);
  }

  /** If the row still names the worker, the worker's claim is the row's last one. */
  lemma HeadIsCurrent(cfg: Config, s: State, w: WorkerId)
    requires Inv(cfg, s) && w in s.workers && s.workers[w].Dispatching? && s.workers[w].todo != []
    requires Head(s, w).id in s.rows && Holds(s.rows[Head(s, w).id], w)
    ensures Head(s, w).number == |s.claims[Head(s, w).id]| - 1
    ensures s.rows[Head(s, w).id].retryCount == Head(s, w).retryRead
  {
    var o := Head(s, w);
    assert o in s.workers[w].todo;
    assert OpenOk(s.rows[o.id], s.claims[o.id], w, o);
    assert RowOk(s.rows[o.id], s.claims[o.id]);
  }

  lemma TailOfBatch(sent: seq<Copy>, limbo: set<Copy>, d: Worker)
    requires d.Dispatching? && BatchOk(sent, limbo, d)
    ensures forall o :: o in d.todo[1..] ==> o in d.todo && o.id != d.todo[0].id
    ensures |d.todo| > 1 ==> BatchOk(sent, limbo, Dispatching(d.todo[1..], Unsent))
  {
    var tail := d.todo[1..];
    forall i | 0 <= i < |tail| ensures tail[i] == d.todo[i + 1] {}
  }

  lemma AdvanceKeepsInv(cfg: Config, s: State, w: WorkerId)
    requires Inv(cfg, s) && w in s.workers && s.workers[w].Dispatching? && s.workers[w].todo != []
    ensures Inv(cfg, Advance(s, w))
  {
    hide RowsOk, BackoffOk, PublishedOk, ChainsOk, CopiesOk, OpenOk, ClaimingOk;
    TailOfBatch(s.sent, s.limbo, s.workers[w]);
    IdleKeepsInv(cfg, s, w);
    var a := Advance(s, w).workers;
    forall v, o | v in a && a[v].Dispatching? && o in a[v].todo
      ensures o.id in s.rows && o.id in s.claims && OpenOk(s.rows[o.id], s.claims[o.id], v, o)
    {
      assert o in s.workers[v].todo;
    }
  }

  /** Once the head is dropped and its row released, no other worker's view of the row changes. */
  lemma ReleaseKeepsWorkers(cfg: Config, s: State, w: WorkerId, row: Row)
    requires Inv(cfg, s) && w in s.workers && s.workers[w].Dispatching? && s.workers[w].todo != []
    requires var id := Head(s, w).id; id in s.rows && Holds(s.rows[id], w) && !Locked(s, id)
    ensures var id, a := Head(s, w).id, Advance(s, w);
      ClaimsOk(cfg, s.rows[id := row], s.now, a.workers) && OpensOk(s.rows[id := row], s.claims, a.workers)
  {
    hide RowsOk, BackoffOk, PublishedOk, ChainsOk, LocksExclusive, CopiesOk;
    var id, a := Head(s, w).id, Advance(s, w);
    var rows := s.rows[id := row];
    AdvanceKeepsInv(cfg, s, w);
    TailOfBatch(s.sent, s.limbo, s.workers[w]);
    forall v | v in a.workers && a.workers[v].Claiming? ensures ClaimingOk(cfg, rows, s.now, a.workers[v]) {
      assert ClaimingOk(cfg, s.rows, s.now, s.workers[v]);
      assert !Locks(s, v, id);
    }
    forall v, o | v in a.workers && a.workers[v].Dispatching? && o in a.workers[v].todo
      ensures o.id in rows && o.id in s.claims && OpenOk(rows[o.id], s.claims[o.id], v, o)
    {
      assert OpenOk(s.rows[o.id], s.claims[o.id], v, o);
      assert v == w ==> o.id != id;
    }
  }

  lemma ReleaseKeepsRows(s: State, id: RowId, row: Row, failedAt: map<RowId, Failure>)
    requires RowsOk(s.rows, s.claims) && BackoffOk(s.rows, s.failedAt) && PublishedOk(s.rows, s.sent)
    requires id in s.rows && RowOk(row, s.claims[id])
    requires forall other :: other != id && other in s.failedAt ==> other in failedAt && failedAt[other] == s.failedAt[other]
    requires row.status == Published ==> Delivered(s.sent, id)
    requires row.status == Pending ==> id in failedAt && row.nextRetryAt == Some(failedAt[id].at + failedAt[id].delay)
    ensures RowsOk(s.rows[id := row], s.claims) && BackoffOk(s.rows[id := row], failedAt) && PublishedOk(s.rows[id := row], s.sent)
  {
    hide RowOk, Delivered;
  }

  lemma ReleaseKeepsInv(cfg: Config, s: State, w: WorkerId, row: Row, failedAt: map<RowId, Failure>)
    requires Inv(cfg, s) && w in s.workers && s.workers[w].Dispatching? && s.workers[w].todo != []
    requires var id := Head(s, w).id;
      && id in s.rows && Holds(s.rows[id], w) && !Locked(s, id)
      && RowOk(row, s.claims[id])
      && (forall other :: other != id && other in s.failedAt ==> other in failedAt && failedAt[other] == s.failedAt[other])
      && (row.status == Published ==> Delivered(s.sent, id))
      && (row.status == Pending ==> id in failedAt && row.nextRetryAt == Some(failedAt[id].at + failedAt[id].delay))
    ensures Inv(cfg, Advance(s, w).(rows := s.rows[Head(s, w).id := row], failedAt := failedAt))
  {
    hide RowsOk, BackoffOk, PublishedOk, ChainsOk, ClaimsOk, LocksExclusive, OpensOk, BatchesOk, CopiesOk;
    AdvanceKeepsInv(cfg, s, w);
    ReleaseKeepsWorkers(cfg, s, w, row);
    ReleaseKeepsRows(s, Head(s, w).id, row, failedAt);
  }

  lemma MarkPublishedKeepsInv(cfg: Config, s: State, w: WorkerId)
    requires Inv(cfg, s) && Enabled(cfg, s, MarkPublished(w, true))
    ensures Inv(cfg, AfterPublished(s, w))
  {
    hide BackoffOk, PublishedOk, ChainsOk, ClaimsOk, LocksExclusive, OpensOk, CopiesOk;
    var id := Head(s, w).id;
    if Holds(s.rows[id], w) {
      assert Delivered(s.sent, id) by {
        assert BatchOk(s.sent, s.limbo, s.workers[w]);
        var i :| 0 <= i < |s.sent| && s.sent[i] == CopyOf(Head(s, w));
      }
      ReleaseKeepsInv(cfg, s, w, PublishedRow(s.rows[id]), s.failedAt);
    } else {
      AdvanceKeepsInv(cfg, s, w);
    }
  }

  lemma FailKeepsRow(cfg: Config, s: State, w: WorkerId, next: int)
    requires Inv(cfg, s) && HasHead(s, w, Refused)
    requires var o := Head(s, w); o.id in s.rows && Holds(s.rows[o.id], w)
    ensures RowOk(FailedRow(s.rows[Head(s, w).id], next), s.claims[Head(s, w).id])
  {
    HeadIsCurrent(cfg, s, w);
  }

  lemma FailureKeepsInv(cfg: Config, s: State, w: WorkerId, clock: Time, delay: int, t: State)
    requires Inv(cfg, s) && Enabled(cfg, s, MarkFailed(w, clock, delay, true))
    requires Holds(s.rows[Head(s, w).id], w)
    requires t == Advance(s, w).(
      rows := s.rows[Head(s, w).id := FailedRow(s.rows[Head(s, w).id], clock + delay)],
      failedAt := s.failedAt[Head(s, w).id := Failure(clock, delay)])
    ensures Inv(cfg, t)
  {
    hide RowsOk, BackoffOk, PublishedOk, ChainsOk, ClaimsOk, LocksExclusive, OpensOk, BatchesOk, CopiesOk, RowOk,
      Delivered;
    var o := Head(s, w);
    FailKeepsRow(cfg, s, w, clock + delay);
    ReleaseKeepsInv(cfg, s, w, FailedRow(s.rows[o.id], clock + delay), s.failedAt[o.id := Failure(clock, delay)]);
  }

  lemma MarkFailedKeepsInv(cfg: Config, s: State, w: WorkerId, clock: Time, delay: int)
    requires Inv(cfg, s) && Enabled(cfg, s, MarkFailed(w, clock, delay, true))
    ensures Inv(cfg, AfterFailed(s, w, clock, delay))
  {
    hide RowsOk, BackoffOk, PublishedOk, ChainsOk, ClaimsOk, LocksExclusive, OpensOk, BatchesOk, CopiesOk;
    if Holds(s.rows[Head(s, w).id], w) {
      FailureKeepsInv(cfg, s, w, clock, delay, AfterFailed(s, w, clock, delay));
    } else {
      AdvanceKeepsInv(cfg, s, w);
    }
  }

  lemma StepKeepsInv(cfg: Config, s: State, step: Step)
    requires Inv(cfg, s) && Enabled(cfg, s, step)
    ensures Inv(cfg, Apply(cfg, s, step))
  {
    hide RowsOk, BackoffOk, PublishedOk, ChainsOk, ClaimsOk, LocksExclusive, OpensOk, BatchesOk, CopiesOk;
    match step
    case Tick(d) => TickKeepsInv(cfg, s, d);
    case Insert(_, _, _) => InsertKeepsInv(cfg, s, step);
    case Select(_, _, _) => SelectKeepsInv(cfg, s, step);
    case Stamp(_) => StampKeepsInv(cfg, s, step);
    case CommitClaim(w, acked) =>
      if acked { CommitKeepsInv(cfg, s, w); } else { CommittedKeepsInv(cfg, s, w); }
    case AbortClaim(w) => IdleKeepsInv(cfg, s, w);
    case Produce(_, _, _) => ProduceKeepsInv(cfg, s, step);
    case LateDelivery(_) => LateDeliveryKeepsInv(cfg, s, step);
    case MarkPublished(w, executed) =>
      if executed { MarkPublishedKeepsInv(cfg, s, w); } else { AdvanceKeepsInv(cfg, s, w); }
    case MarkFailed(w, clock, delay, executed) =>
      if executed { MarkFailedKeepsInv(cfg, s, w, clock, delay); } else { AdvanceKeepsInv(cfg, s, w); }
    case Crash(w) => IdleKeepsInv(cfg, s, w);
  }

  lemma {:induction false} RunKeepsInv(cfg: Config, run: seq<Step>)
    requires Run(cfg, run).Some?
    ensures Inv(cfg, Run(cfg, run).value)
  {
    if run != [] {
      var before := run[..|run| - 1];
      RunKeepsInv(cfg, before);
      StepKeepsInv(cfg, Run(cfg, before).value, run[|run| - 1]);
    }
  }

  ghost predicate Reachable(cfg: Config, s: State) {
    exists run :: Run(cfg, run) == Some(s)
  }

  lemma ReachableInv(cfg: Config, s: State)
    requires Reachable(cfg, s)
    ensures Inv(cfg, s)
  {
    var run :| Run(cfg, run) == Some(s);
    RunKeepsInv(cfg, run);
  }

  lemma ReachableStep(cfg: Config, s: State, step: Step)
    requires Reachable(cfg, s) && Enabled(cfg, s, step)
    ensures Reachable(cfg, Apply(cfg, s, step))
  {
    var run :| Run(cfg, run) == Some(s);
    assert (run + [step])[..|run|] == run;
    assert Run(cfg, run + [step]) == Some(Apply(cfg, s, step));
  }
}
