/**
 The charge of a gift: Service.Send and Repository.Create of internal/gift, Repository.Credit and Balance of
 internal/wallet, over the commerce tables.

 Transactions advance one statement at a time. What a transaction wrote stays private until COMMIT; its row and
 unique-key locks follow from what it wrote, and a statement that needs a lock held elsewhere is not enabled.
 Any statement may fail, which rolls the transaction back, and a commit may be applied without being reported.
 */
module Money {
  import opened Basics
  import opened Events

  type Pid = nat

  datatype GiftRow = GiftRow(name: string, price: int, online: bool)

  datatype Order = Order(
    orderNo: string, requestId: string, userId: int, anchorId: int, roomId: int, giftId: int,
    count: int, unitPrice: int, total: int, success: bool)

  datatype Biz = GIFT | DEV_CREDIT

  datatype LedgerRow = LedgerRow(
    transactionNo: string, userId: int, biz: Biz, bizId: string, amount: int, before: int, after: int)

  datatype Wallet = Wallet(userId: int, balance: int)

  datatype Tables = Tables(
    gifts: map<int, GiftRow>, wallets: map<int, int>,
    orders: seq<Order>, ledger: seq<LedgerRow>, events: seq<OutboxEvent>)

  /** The private writes of an open transaction. */
  datatype Tx = Tx(order: Option<Order>, wallet: Option<Wallet>, ledger: Option<LedgerRow>, event: Option<OutboxEvent>)

  const NO_TX := Tx(None, None, None, None)

  datatype Request = Request(requestId: string, userId: int, roomId: int, giftId: int, count: int)

  /** Random ids drawn for one attempt; nothing is assumed about them. */
  datatype Ids = Ids(orderNo: string, transactionNo: string, eventId: string)

  datatype Job =
    | Send(req: Request, ids: Ids)
    | Credit(userId: int, amount: int, transactionNo: string, bizId: string)

  datatype Failure =
    | InvalidCount | InvalidRequestId | RoomLookupFailed | NotLiving | Banned | RateLimited
    | GiftNotFound | GiftOffline | AmountOverflow | InsufficientBalance
    | IdempotencyConflict | OrderNotFound | OutboxNotConfigured | CallFailed

  datatype Result = Sent(order: Order, replay: bool) | Credited(balance: int) | Failed(cause: Failure)

  /** The statement a process is about to execute. */
  datatype Stage =
    | GetRoom | CheckBan | CheckLimit
    | LookupOr(otherwise: Failure)
    | SelectGift | InsertOrder | EnsureWallet | UpdateWallet | SelectBalance
    | InsertLedger | CompleteOrder | InsertEvent | CommitTx
    | LookupDuplicate | ReadBack
    | Finished(result: Result)

  /** anchor, gift and after are the local variables of Send, Create and Credit. */
  datatype Proc = Proc(job: Job, stage: Stage, anchor: int, gift: GiftRow, after: int, tx: Tx)

  datatype State = State(db: Tables, procs: map<Pid, Proc>)

  datatype Config = Config(maxCount: int, topic: string)

  datatype RoomAnswer = RoomError | RoomClosed | RoomLiving(anchorId: int)

  datatype Gate = Pass | Refuse | GateError

  datatype Step =
    | SetGift(id: int, row: GiftRow)
    | TouchWallet(userId: int)
    | Start(pid: Pid, job: Job)
    | AnswerRoom(pid: Pid, room: RoomAnswer)
    | AnswerGate(pid: Pid, gate: Gate)
    | Exec(pid: Pid, ok: bool)
    | Commit(pid: Pid, acked: bool, applied: bool)
    | Crash(pid: Pid)

  function Init(): State {
    State(Tables(map[], map[], [], [], []), map[])
  }

  // ----- the guards of Send and Create -----

  function CountLimit(cfg: Config): int {
    if cfg.maxCount <= 0 then 100 else cfg.maxCount
  }

  predicate RequestChar(c: char) {
    || 'a' <= c <= 'z' || 'A' <= c <= 'Z' || '0' <= c <= '9' || c in {'-', '_', ':', '.'}
  }

  predicate ValidRequestId(s: string) {
    8 <= |s| <= 128 && forall i :: 0 <= i < |s| ==> RequestChar(s[i])
  }

  predicate SameRequest(o: Order, r: Request) {
    o.userId == r.userId && o.roomId == r.roomId && o.giftId == r.giftId && o.count == r.count
  }

  /** price > MaxInt64/count, with Go's truncating division of positive numbers. */
  predicate Overflows(price: int, count: int) {
    count <= 0 || price < 0 || price > MAX_INT64 / count
  }

  function WalletOf(wallets: map<int, int>, u: int): int {
    if u in wallets then wallets[u] else 0
  }

  /** The user whose wallet a job changes and by how much. */
  function UserOf(job: Job): int {
    match job case Send(req, _) => req.userId case Credit(u, _, _, _) => u
  }

  function DeltaOf(p: Proc): int {
    match p.job case Send(req, _) => -(p.gift.price * req.count) case Credit(_, amount, _, _) => amount
  }

  function TransactionNo(job: Job): string {
    match job case Send(_, ids) => ids.transactionNo case Credit(_, _, no, _) => no
  }

  function OrderOf(p: Proc, success: bool): Order
    requires p.job.Send?
  {
    var r := p.job.req;
    Order(p.job.ids.orderNo, r.requestId, r.userId, p.anchor, r.roomId, r.giftId, r.count, p.gift.price,
          p.gift.price * r.count, success)
  }

  function LedgerOf(p: Proc): LedgerRow {
    match p.job
    case Send(_, ids) =>
      LedgerRow(ids.transactionNo, UserOf(p.job), GIFT, ids.orderNo, DeltaOf(p), p.after - DeltaOf(p), p.after)
    case Credit(_, _, no, bizId) =>
      LedgerRow(no, UserOf(p.job), DEV_CREDIT, bizId, DeltaOf(p), p.after - DeltaOf(p), p.after)
  }

  /** The event of a charged order, as the transaction writes it. */
  function EventFor(cfg: Config, o: Order, giftName: string, eventId: string): OutboxEvent {
    OutboxEvent(eventId, o.orderNo, cfg.topic, Decimal(o.roomId),
      Wire(Envelope(eventId, EVENT_TYPE_GIFT_SENT, o.roomId, true,
        OfGift(Gift(o.orderNo, o.userId, o.anchorId, o.giftId, giftName, o.count, o.unitPrice, o.total)))))
  }

  predicate HasOrderNo(orders: seq<Order>, no: string) {
    exists i | 0 <= i < |orders| :: orders[i].orderNo == no
  }

  predicate HasRequest(orders: seq<Order>, rid: string) {
    exists i | 0 <= i < |orders| :: orders[i].requestId == rid
  }

  predicate HasTransaction(ledger: seq<LedgerRow>, no: string) {
    exists i | 0 <= i < |ledger| :: ledger[i].transactionNo == no
  }

  predicate HasEvent(events: seq<OutboxEvent>, id: string) {
    exists i | 0 <= i < |events| :: events[i].eventId == id
  }

  /** SELECT ... WHERE request_id=? LIMIT 1 */
  function ByRequestId(orders: seq<Order>, rid: string): Option<Order> {
    if orders == [] then None
    else if orders[0].requestId == rid then Some(orders[0])
    else ByRequestId(orders[1..], rid)
  }

  function ByOrderNo(orders: seq<Order>, no: string): Option<Order> {
    if orders == [] then None
    else if orders[0].orderNo == no then Some(orders[0])
    else ByOrderNo(orders[1..], no)
  }

  // ----- locks -----

  /** The keys two transactions contend for. */
  predicate Contend(a: Tx, b: Tx) {
    || (a.order.Some? && b.order.Some? &&
        (a.order.value.orderNo == b.order.value.orderNo || a.order.value.requestId == b.order.value.requestId))
    || (a.wallet.Some? && b.wallet.Some? && a.wallet.value.userId == b.wallet.value.userId)
    || (a.ledger.Some? && b.ledger.Some? && a.ledger.value.transactionNo == b.ledger.value.transactionNo)
    || (a.event.Some? && b.event.Some? && a.event.value.eventId == b.event.value.eventId)
  }

  /** The statement after which the process would hold tx has to wait for another transaction. */
  predicate Blocked(s: State, pid: Pid, tx: Tx) {
    exists q | q in s.procs :: q != pid && Contend(s.procs[q].tx, tx)
  }

  predicate WalletLocked(s: State, u: int) {
    exists q | q in s.procs :: s.procs[q].tx.wallet.Some? && s.procs[q].tx.wallet.value.userId == u
  }

  // ----- the effect of one statement of a transaction -----

  function Ended(p: Proc, result: Result): Proc {
    p.(stage := Finished(result), tx := NO_TX)
  }

  function Fails(p: Proc, cause: Failure): Proc {
    Ended(p, Failed(cause))
  }

  /** The answer to a lookup by request id: the original order, a conflict, or the given failure. */
  function Answer(p: Proc, found: Option<Order>, otherwise: Failure): Proc {
    match found
    case None => Fails(p, otherwise)
    case Some(o) =>
      if p.job.Send? && SameRequest(o, p.job.req) then Ended(p, Sent(o, true)) else Fails(p, IdempotencyConflict)
  }

  function AfterSelectGift(db: Tables, p: Proc): Proc
    requires p.job.Send?
  {
    if p.job.req.giftId !in db.gifts then Fails(p, GiftNotFound)
    else
      var g := db.gifts[p.job.req.giftId];
      if !g.online then Fails(p, GiftOffline)
      else if Overflows(g.price, p.job.req.count) then Fails(p, AmountOverflow)
      else p.(gift := g, stage := InsertOrder)
  }

  function AfterInsertOrder(db: Tables, p: Proc): Proc
    requires p.job.Send?
  {
    if HasOrderNo(db.orders, p.job.ids.orderNo) then Fails(p, CallFailed)
    else if HasRequest(db.orders, p.job.req.requestId) then p.(stage := LookupDuplicate, tx := NO_TX)
    else p.(stage := EnsureWallet, tx := p.tx.(order := Some(OrderOf(p, false))))
  }

  function AfterEnsureWallet(db: Tables, p: Proc): Proc {
    var u := UserOf(p.job);
    p.(stage := UpdateWallet, tx := p.tx.(wallet := Some(Wallet(u, WalletOf(db.wallets, u)))))
  }

  /** The charge needs the balance; a credit must respect the column's range and its CHECK. */
  function AfterUpdateWallet(p: Proc): Proc
    requires p.tx.wallet.Some?
  {
    var w := p.tx.wallet.value;
    if 0 <= w.balance + DeltaOf(p) <= MAX_INT64
    then p.(stage := SelectBalance, tx := p.tx.(wallet := Some(w.(balance := w.balance + DeltaOf(p)))))
    else Fails(p, if p.job.Send? then InsufficientBalance else CallFailed)
  }

  function AfterInsertLedger(db: Tables, p: Proc): Proc {
    if HasTransaction(db.ledger, TransactionNo(p.job)) then Fails(p, CallFailed)
    else p.(stage := if p.job.Send? then CompleteOrder else CommitTx, tx := p.tx.(ledger := Some(LedgerOf(p))))
  }

  function AfterInsertEvent(cfg: Config, db: Tables, p: Proc): Proc
    requires p.job.Send? && p.tx.order.Some?
  {
    if p.job.ids.eventId == "" || cfg.topic == "" then Fails(p, OutboxNotConfigured)
    else if HasEvent(db.events, p.job.ids.eventId) then Fails(p, CallFailed)
    else p.(stage := CommitTx,
            tx := p.tx.(event := Some(EventFor(cfg, p.tx.order.value, p.gift.name, p.job.ids.eventId))))
  }

  predicate IsStatement(p: Proc) {
    match p.stage
    case LookupOr(_) => true
    case EnsureWallet => true
    case UpdateWallet => p.tx.wallet.Some?
    case SelectBalance => p.tx.wallet.Some?
    case InsertLedger => true
    case SelectGift => p.job.Send?
    case InsertOrder => p.job.Send?
    case CompleteOrder => p.job.Send? && p.tx.order.Some?
    case InsertEvent => p.job.Send? && p.tx.order.Some?
    case LookupDuplicate => p.job.Send?
    case ReadBack => p.job.Send?
    case _ => false
  }

  function Statement(cfg: Config, db: Tables, p: Proc): Proc
    requires IsStatement(p)
  {
    match p.stage
    case LookupOr(otherwise) =>
      Answer(p, if p.job.Send? then ByRequestId(db.orders, p.job.req.requestId) else None, otherwise)
    case SelectGift => AfterSelectGift(db, p)
    case InsertOrder => AfterInsertOrder(db, p)
    case EnsureWallet => AfterEnsureWallet(db, p)
    case UpdateWallet => AfterUpdateWallet(p)
    case SelectBalance => p.(stage := InsertLedger, after := p.tx.wallet.value.balance)
    case InsertLedger => AfterInsertLedger(db, p)
    case CompleteOrder => p.(stage := InsertEvent, tx := p.tx.(order := Some(p.tx.order.value.(success := true))))
    case InsertEvent => AfterInsertEvent(cfg, db, p)
    case LookupDuplicate => Answer(p, ByRequestId(db.orders, p.job.req.requestId), OrderNotFound)
    case ReadBack =>
      match ByOrderNo(db.orders, p.job.ids.orderNo)
      case None => Fails(p, OrderNotFound)
      case Some(o) => Ended(p, Sent(o, false))
  }

  /** COMMIT makes all private writes visible at once. */
  function Merged(db: Tables, tx: Tx): Tables {
    db.(wallets := if tx.wallet.Some? then db.wallets[tx.wallet.value.userId := tx.wallet.value.balance] else db.wallets,
        orders := if tx.order.Some? then db.orders + [tx.order.value] else db.orders,
        ledger := if tx.ledger.Some? then db.ledger + [tx.ledger.value] else db.ledger,
        events := if tx.event.Some? then db.events + [tx.event.value] else db.events)
  }

  function AfterCommit(p: Proc, acked: bool): Proc {
    if !acked then Fails(p, CallFailed)
    else if p.job.Send? then p.(stage := ReadBack, tx := NO_TX)
    else Ended(p, Credited(p.after))
  }

  // ----- the step system -----

  predicate Enabled(cfg: Config, s: State, step: Step) {
    match step
    case SetGift(_, row) => row.price >= 0
    case TouchWallet(u) => u !in s.db.wallets && !WalletLocked(s, u)
    case Start(pid, _) => pid !in s.procs
    case AnswerRoom(pid, _) => pid in s.procs && s.procs[pid].stage == GetRoom
    case AnswerGate(pid, _) => pid in s.procs && (s.procs[pid].stage == CheckBan || s.procs[pid].stage == CheckLimit)
    case Exec(pid, ok) =>
      && pid in s.procs && IsStatement(s.procs[pid])
      && (ok ==> !Blocked(s, pid, Statement(cfg, s.db, s.procs[pid]).tx))
    case Commit(pid, acked, applied) => pid in s.procs && s.procs[pid].stage == CommitTx && (acked ==> applied)
    case Crash(pid) => pid in s.procs
  }

  function Started(cfg: Config, job: Job): Proc {
    var p := Proc(job, GetRoom, 0, GiftRow("", 0, false), 0, NO_TX);
    if job.Credit? then p.(stage := EnsureWallet)
    else if job.req.count < 1 || job.req.count > CountLimit(cfg) then Fails(p, InvalidCount)
    else if !ValidRequestId(job.req.requestId) then Fails(p, InvalidRequestId)
    else p
  }

  function AfterRoom(p: Proc, room: RoomAnswer): Proc {
    match room
    case RoomError => p.(stage := LookupOr(RoomLookupFailed))
    case RoomClosed => p.(stage := LookupOr(NotLiving))
    case RoomLiving(anchor) => p.(stage := CheckBan, anchor := anchor)
  }

  function AfterGate(p: Proc, gate: Gate): Proc {
    match gate
    case GateError => Fails(p, CallFailed)
    case Refuse => p.(stage := LookupOr(if p.stage == CheckBan then Banned else RateLimited))
    case Pass => p.(stage := if p.stage == CheckBan then CheckLimit else SelectGift)
  }

  function With(s: State, pid: Pid, p: Proc): State {
    s.(procs := s.procs[pid := p])
  }

  function Apply(cfg: Config, s: State, step: Step): State
    requires Enabled(cfg, s, step)
  {
    match step
    case SetGift(id, row) => s.(db := s.db.(gifts := s.db.gifts[id := row]))
    case TouchWallet(u) => s.(db := s.db.(wallets := s.db.wallets[u := 0]))
    case Start(pid, job) => With(s, pid, Started(cfg, job))
    case AnswerRoom(pid, room) => With(s, pid, AfterRoom(s.procs[pid], room))
    case AnswerGate(pid, gate) => With(s, pid, AfterGate(s.procs[pid], gate))
    case Exec(pid, ok) =>
      With(s, pid, if ok then Statement(cfg, s.db, s.procs[pid]) else Fails(s.procs[pid], CallFailed))
    case Commit(pid, acked, applied) =>
      var t := With(s, pid, AfterCommit(s.procs[pid], acked));
      if applied then t.(db := Merged(s.db, s.procs[pid].tx)) else t
    case Crash(pid) => s.(procs := map q | q in s.procs && q != pid :: s.procs[q])
  }

  function Run(cfg: Config, run: seq<Step>): Option<State> {
    if run == [] then Some(Init())
    else match Run(cfg, run[..|run| - 1])
      case None => None
      case Some(s) => if Enabled(cfg, s, run[|run| - 1]) then Some(Apply(cfg, s, run[|run| - 1])) else None
  }

  ghost predicate Reachable(cfg: Config, s: State) {
    exists run :: Run(cfg, run) == Some(s)
  }

  // ----- the inductive invariant: the tables -----

  function SumLedger(ledger: seq<LedgerRow>, u: int): int {
    if ledger == [] then 0
    else SumLedger(ledger[..|ledger| - 1], u) +
         (if ledger[|ledger| - 1].userId == u then ledger[|ledger| - 1].amount else 0)
  }

  /** The ledger rows of gifts, oldest first. */
  function GiftRows(ledger: seq<LedgerRow>): seq<LedgerRow> {
    if ledger == [] then []
    else if ledger[|ledger| - 1].biz == GIFT then GiftRows(ledger[..|ledger| - 1]) + [ledger[|ledger| - 1]]
    else GiftRows(ledger[..|ledger| - 1])
  }

  ghost predicate BalancesOk(wallets: map<int, int>, ledger: seq<LedgerRow>) {
    forall u :: WalletOf(wallets, u) == SumLedger(ledger, u) && 0 <= WalletOf(wallets, u) <= MAX_INT64
  }

  /** Every ledger row starts where the user's earlier rows ended. */
  ghost predicate LedgerOk(ledger: seq<LedgerRow>) {
    && (forall i :: 0 <= i < |ledger| ==>
          && ledger[i].before == SumLedger(ledger[..i], ledger[i].userId) && ledger[i].after == ledger[i].before + ledger[i].amount
          && 0 <= ledger[i].before <= MAX_INT64 && 0 <= ledger[i].after <= MAX_INT64)
    && (forall i, j :: 0 <= i < j < |ledger| ==> ledger[i].transactionNo != ledger[j].transactionNo)
  }

  ghost predicate OrderOk(o: Order) {
    o.success && o.count > 0 && o.unitPrice >= 0 && o.total == o.unitPrice * o.count && 0 <= o.total <= MAX_INT64
  }

  ghost predicate OrdersOk(orders: seq<Order>) {
    && (forall i :: 0 <= i < |orders| ==> OrderOk(orders[i]))
    && (forall i, j :: 0 <= i < j < |orders| ==>
          orders[i].orderNo != orders[j].orderNo && orders[i].requestId != orders[j].requestId)
  }

  ghost predicate Charges(o: Order, row: LedgerRow) {
    row.biz == GIFT && row.bizId == o.orderNo && row.userId == o.userId && row.amount == -o.total
  }

  ghost predicate Announces(cfg: Config, o: Order, e: OutboxEvent) {
    e.eventId != "" && exists name :: e == EventFor(cfg, o, name, e.eventId)
  }

  /** Order i, gift ledger row i and event i belong together. */
  ghost predicate TripleOk(cfg: Config, orders: seq<Order>, rows: seq<LedgerRow>, events: seq<OutboxEvent>) {
    && |orders| == |rows| == |events|
    && (forall i :: 0 <= i < |orders| ==> Charges(orders[i], rows[i]))
    && (forall i :: 0 <= i < |orders| ==> Announces(cfg, orders[i], events[i]))
    && (forall i, j :: 0 <= i < j < |events| ==> events[i].eventId != events[j].eventId)
  }

  ghost predicate GiftsOk(gifts: map<int, GiftRow>) {
    forall id :: id in gifts ==> gifts[id].price >= 0
  }

  ghost predicate TablesOk(cfg: Config, db: Tables) {
    && BalancesOk(db.wallets, db.ledger) && LedgerOk(db.ledger) && OrdersOk(db.orders)
    && TripleOk(cfg, db.orders, GiftRows(db.ledger), db.events) && GiftsOk(db.gifts)
  }

  // ----- the inductive invariant: the processes -----

  function Rank(stage: Stage): nat {
    match stage
    case EnsureWallet => 1
    case UpdateWallet => 2
    case SelectBalance => 3
    case InsertLedger => 4
    case CompleteOrder => 5
    case InsertEvent => 6
    case CommitTx => 7
    case _ => 0
  }

  /** The amount was checked when the gift was read. */
  ghost predicate PricedOk(p: Proc) {
    p.job.Send? && (p.stage == InsertOrder || Rank(p.stage) >= 1) ==>
      p.gift.price >= 0 && p.job.req.count > 0 && p.gift.price * p.job.req.count <= MAX_INT64
  }

  /** What the open transaction has written so far, from the stage alone. */
  ghost predicate TxShape(cfg: Config, p: Proc) {
    var r := Rank(p.stage);
    && p.tx.order == (if p.job.Send? && r >= 1 then Some(OrderOf(p, r >= 6)) else None)
    && (p.tx.wallet.Some? <==> r >= 2)
    && (r >= 2 ==> p.tx.wallet.value.userId == UserOf(p.job))
    && (r >= 4 ==> p.after == p.tx.wallet.value.balance)
    && p.tx.ledger == (if r >= 5 then Some(LedgerOf(p)) else None)
    && (p.tx.event.Some? <==> p.job.Send? && r >= 7)
    && (p.tx.event.Some? ==>
          p.tx.event.value == EventFor(cfg, OrderOf(p, true), p.gift.name, p.job.ids.eventId) && p.job.ids.eventId != "")
    && (p.job.Credit? ==> r >= 1 || p.stage.Finished? || p.stage.LookupOr?)
    && (p.job.Credit? ==> r != 5 && r != 6)
  }

  /** The private balance is the committed one plus what the transaction added. */
  ghost predicate PrivateOk(wallets: map<int, int>, p: Proc) {
    p.tx.wallet.Some? ==>
      && p.tx.wallet.value.balance == WalletOf(wallets, p.tx.wallet.value.userId) + (if Rank(p.stage) >= 3 then DeltaOf(p) else 0)
      && 0 <= p.tx.wallet.value.balance <= MAX_INT64
  }

  /** Keys a transaction inserted are new. */
  ghost predicate FreshOk(db: Tables, tx: Tx) {
    && (tx.order.Some? ==> !HasOrderNo(db.orders, tx.order.value.orderNo) && !HasRequest(db.orders, tx.order.value.requestId))
    && (tx.ledger.Some? ==> !HasTransaction(db.ledger, tx.ledger.value.transactionNo))
    && (tx.event.Some? ==> !HasEvent(db.events, tx.event.value.eventId))
  }

  /** Answers name committed orders of the same request. */
  ghost predicate ResultOk(orders: seq<Order>, p: Proc) {
    && (p.stage.Finished? && p.stage.result.Sent? ==>
          && p.job.Send? && p.stage.result.order in orders
          && p.stage.result.order.requestId == p.job.req.requestId && SameRequest(p.stage.result.order, p.job.req))
    && (p.stage == LookupDuplicate ==> p.job.Send? && HasRequest(orders, p.job.req.requestId))
    && (p.stage == ReadBack ==> p.job.Send? && OrderOf(p, true) in orders)
  }

  ghost predicate ProcOk(cfg: Config, db: Tables, p: Proc) {
    PricedOk(p) && TxShape(cfg, p) && PrivateOk(db.wallets, p) && FreshOk(db, p.tx) && ResultOk(db.orders, p)
  }

  ghost predicate NoContention(procs: map<Pid, Proc>) {
    forall p, q :: p in procs && q in procs && p != q ==> !Contend(procs[p].tx, procs[q].tx)
  }

  ghost predicate Inv(cfg: Config, s: State) {
    && TablesOk(cfg, s.db)
    && (forall pid :: pid in s.procs ==> ProcOk(cfg, s.db, s.procs[pid]))
    && NoContention(s.procs)
  }

  // ----- statements -----

  lemma {:induction false} FindRequest(orders: seq<Order>, rid: string)
    ensures match ByRequestId(orders, rid)
      case None => !HasRequest(orders, rid)
      case Some(o) => o in orders && o.requestId == rid
  {
    if orders != [] && orders[0].requestId != rid {
      FindRequest(orders[1..], rid);
      if HasRequest(orders, rid) {
        var i :| 0 <= i < |orders| && orders[i].requestId == rid;
        assert orders[1..][i - 1].requestId == rid;
      }
    }
  }

  lemma {:induction false} FindOrder(orders: seq<Order>, no: string)
    ensures match ByOrderNo(orders, no)
      case None => !HasOrderNo(orders, no)
      case Some(o) => o in orders && o.orderNo == no
  {
    if orders != [] && orders[0].orderNo != no {
      FindOrder(orders[1..], no);
      if HasOrderNo(orders, no) {
        var i :| 0 <= i < |orders| && orders[i].orderNo == no;
        assert orders[1..][i - 1].orderNo == no;
      }
    }
  }

  lemma SameKeySameOrder(orders: seq<Order>, a: Order, b: Order)
    requires OrdersOk(orders) && a in orders && b in orders && (a.orderNo == b.orderNo || a.requestId == b.requestId)
    ensures a == b
  {
    var i :| 0 <= i < |orders| && orders[i] == a;
    var j :| 0 <= j < |orders| && orders[j] == b;
    assert !(i < j) && !(j < i);
  }

  lemma FailsOk(cfg: Config, db: Tables, p: Proc, cause: Failure)
    ensures ProcOk(cfg, db, Fails(p, cause))
  {
  }

  lemma AnswerOk(cfg: Config, db: Tables, p: Proc, otherwise: Failure)
    requires p.job.Send?
    ensures ProcOk(cfg, db, Answer(p, ByRequestId(db.orders, p.job.req.requestId), otherwise))
  {
    FindRequest(db.orders, p.job.req.requestId);
  }

  lemma PriceBound(price: int, count: int)
    requires !Overflows(price, count)
    ensures 0 <= price * count <= MAX_INT64
  {
    var q := MAX_INT64 / count;
    assert q * count <= MAX_INT64;
    assert price * count <= q * count by { MulMonotone(price, q, count); }
  }

  lemma MulMonotone(a: int, b: int, c: int)
    requires a <= b && c >= 0
    ensures a * c <= b * c
  {
  }

  lemma SelectGiftOk(cfg: Config, db: Tables, p: Proc)
    requires ProcOk(cfg, db, p) && p.stage == SelectGift && p.job.Send?
    ensures ProcOk(cfg, db, AfterSelectGift(db, p))
  {
    var id := p.job.req.giftId;
    if id in db.gifts && !Overflows(db.gifts[id].price, p.job.req.count) {
      PriceBound(db.gifts[id].price, p.job.req.count);
    }
  }

  lemma ReadBackOk(cfg: Config, db: Tables, p: Proc)
    requires OrdersOk(db.orders) && ProcOk(cfg, db, p) && p.stage == ReadBack && p.job.Send?
    ensures ProcOk(cfg, db, Statement(cfg, db, p))
    ensures Statement(cfg, db, p).stage == Finished(Sent(OrderOf(p, true), false))
  {
    FindOrder(db.orders, p.job.ids.orderNo);
    var i :| 0 <= i < |db.orders| && db.orders[i] == OrderOf(p, true);
    assert HasOrderNo(db.orders, p.job.ids.orderNo);
    SameKeySameOrder(db.orders, ByOrderNo(db.orders, p.job.ids.orderNo).value, OrderOf(p, true));
  }

  lemma InsertOrderOk(cfg: Config, db: Tables, p: Proc)
    requires ProcOk(cfg, db, p) && p.stage == InsertOrder && p.job.Send?
    ensures ProcOk(cfg, db, AfterInsertOrder(db, p))
  {
  }

  lemma WalletStatementOk(cfg: Config, db: Tables, p: Proc)
    requires BalancesOk(db.wallets, db.ledger) && ProcOk(cfg, db, p) && IsStatement(p)
    requires p.stage == EnsureWallet || p.stage == UpdateWallet || p.stage == SelectBalance
    ensures ProcOk(cfg, db, Statement(cfg, db, p))
  {
    assert 0 <= WalletOf(db.wallets, UserOf(p.job)) <= MAX_INT64;
  }

  lemma LedgerStatementOk(cfg: Config, db: Tables, p: Proc)
    requires ProcOk(cfg, db, p) && p.stage == InsertLedger
    ensures ProcOk(cfg, db, AfterInsertLedger(db, p))
  {
  }

  lemma FinalStatementOk(cfg: Config, db: Tables, p: Proc)
    requires ProcOk(cfg, db, p) && IsStatement(p) && (p.stage == CompleteOrder || p.stage == InsertEvent)
    ensures ProcOk(cfg, db, Statement(cfg, db, p))
  {
    hide WalletOf, SameRequest, HasOrderNo, HasRequest, HasTransaction, Overflows;
  }

  /** One statement leaves the process consistent with the committed tables. */
  lemma StatementOk(cfg: Config, db: Tables, p: Proc)
    requires TablesOk(cfg, db) && ProcOk(cfg, db, p) && IsStatement(p)
    ensures ProcOk(cfg, db, Statement(cfg, db, p))
  {
    match p.stage
    case LookupOr(otherwise) =>
      if p.job.Send? { AnswerOk(cfg, db, p, otherwise); }
    case SelectGift => SelectGiftOk(cfg, db, p);
    case LookupDuplicate => AnswerOk(cfg, db, p, OrderNotFound);
    case ReadBack => ReadBackOk(cfg, db, p);
    case InsertOrder => InsertOrderOk(cfg, db, p);
    case InsertLedger => LedgerStatementOk(cfg, db, p);
    case CompleteOrder => FinalStatementOk(cfg, db, p);
    case InsertEvent => FinalStatementOk(cfg, db, p);
    case _ => WalletStatementOk(cfg, db, p);
  }

  // ----- commit -----

  lemma SumAppend(ledger: seq<LedgerRow>, row: LedgerRow, u: int)
    ensures SumLedger(ledger + [row], u) == SumLedger(ledger, u) + (if row.userId == u then row.amount else 0)
  {
    assert (ledger + [row])[..|ledger|] == ledger;
  }

  lemma GiftRowsAppend(ledger: seq<LedgerRow>, row: LedgerRow)
    ensures GiftRows(ledger + [row]) == GiftRows(ledger) + (if row.biz == GIFT then [row] else [])
  {
    assert (ledger + [row])[..|ledger|] == ledger;
  }

  lemma CommitBalances(wallets: map<int, int>, ledger: seq<LedgerRow>, w: Wallet, row: LedgerRow)
    requires BalancesOk(wallets, ledger) && row.userId == w.userId && 0 <= w.balance <= MAX_INT64
    requires w.balance == WalletOf(wallets, w.userId) + row.amount
    ensures BalancesOk(wallets[w.userId := w.balance], ledger + [row])
  {
    var after := wallets[w.userId := w.balance];
    forall u ensures WalletOf(after, u) == SumLedger(ledger + [row], u) && 0 <= WalletOf(after, u) <= MAX_INT64 {
      SumAppend(ledger, row, u);
      assert WalletOf(wallets, u) == SumLedger(ledger, u);
    }
  }

  lemma CommitLedger(ledger: seq<LedgerRow>, row: LedgerRow)
    requires LedgerOk(ledger) && !HasTransaction(ledger, row.transactionNo)
    requires row.before == SumLedger(ledger, row.userId) && row.after == row.before + row.amount
    requires 0 <= row.before <= MAX_INT64 && 0 <= row.after <= MAX_INT64
    ensures LedgerOk(ledger + [row])
  {
    var t := ledger + [row];
    forall i | 0 <= i < |t|
      ensures t[i].before == SumLedger(t[..i], t[i].userId) && t[i].after == t[i].before + t[i].amount
      ensures 0 <= t[i].before <= MAX_INT64 && 0 <= t[i].after <= MAX_INT64
    {
      assert t[..i] == ledger[..i];
      if i == |ledger| { assert ledger[..i] == ledger; }
    }
  }

  lemma CommitOrders(orders: seq<Order>, o: Order)
    requires OrdersOk(orders) && OrderOk(o) && !HasOrderNo(orders, o.orderNo) && !HasRequest(orders, o.requestId)
    ensures OrdersOk(orders + [o])
  {
  }

  lemma CommitTriple(cfg: Config, orders: seq<Order>, ledger: seq<LedgerRow>, events: seq<OutboxEvent>,
                     o: Order, row: LedgerRow, e: OutboxEvent)
    requires TripleOk(cfg, orders, GiftRows(ledger), events) && Charges(o, row) && Announces(cfg, o, e)
    requires !HasEvent(events, e.eventId)
    ensures TripleOk(cfg, orders + [o], GiftRows(ledger + [row]), events + [e])
  {
    GiftRowsAppend(ledger, row);
  }

  /** The ledger row continues the user's balance, because the wallet row stayed locked. */
  lemma CommitMoney(cfg: Config, db: Tables, p: Proc)
    requires BalancesOk(db.wallets, db.ledger) && LedgerOk(db.ledger) && ProcOk(cfg, db, p) && p.stage == CommitTx
    ensures BalancesOk(Merged(db, p.tx).wallets, Merged(db, p.tx).ledger) && LedgerOk(Merged(db, p.tx).ledger)
  {
    var row, w := LedgerOf(p), p.tx.wallet.value;
    assert WalletOf(db.wallets, w.userId) == SumLedger(db.ledger, w.userId);
    CommitBalances(db.wallets, db.ledger, w, row);
    CommitLedger(db.ledger, row);
  }

  lemma CommitGift(cfg: Config, db: Tables, p: Proc)
    requires OrdersOk(db.orders) && TripleOk(cfg, db.orders, GiftRows(db.ledger), db.events)
    requires ProcOk(cfg, db, p) && p.stage == CommitTx && p.job.Send?
    ensures OrdersOk(Merged(db, p.tx).orders)
    ensures TripleOk(cfg, Merged(db, p.tx).orders, GiftRows(Merged(db, p.tx).ledger), Merged(db, p.tx).events)
  {
    var o := OrderOf(p, true);
    CommitOrders(db.orders, o);
    assert p.tx.event.value == EventFor(cfg, o, p.gift.name, p.tx.event.value.eventId);
    CommitTriple(cfg, db.orders, db.ledger, db.events, o, LedgerOf(p), p.tx.event.value);
  }

  lemma CommitTables(cfg: Config, db: Tables, p: Proc)
    requires TablesOk(cfg, db) && ProcOk(cfg, db, p) && p.stage == CommitTx
    ensures TablesOk(cfg, Merged(db, p.tx))
  {
    CommitMoney(cfg, db, p);
    if p.job.Send? {
      CommitGift(cfg, db, p);
    } else {
      GiftRowsAppend(db.ledger, LedgerOf(p));
    }
  }

  /** A commit disturbs no transaction it does not contend with. */
  lemma CommitKeepsOther(cfg: Config, db: Tables, tx: Tx, q: Proc)
    requires ProcOk(cfg, db, q) && !Contend(tx, q.tx)
    ensures ProcOk(cfg, Merged(db, tx), q)
  {
    var m := Merged(db, tx);
    CommitKeepsFresh(db, tx, q.tx);
    CommitKeepsResult(db, tx, q);
  }

  lemma CommitKeepsFresh(db: Tables, tx: Tx, other: Tx)
    requires FreshOk(db, other) && !Contend(tx, other)
    ensures FreshOk(Merged(db, tx), other)
  {
  }

  lemma CommitKeepsResult(db: Tables, tx: Tx, q: Proc)
    requires ResultOk(db.orders, q)
    ensures ResultOk(Merged(db, tx).orders, q)
  {
    var orders := Merged(db, tx).orders;
    assert db.orders <= orders;
    if q.stage == LookupDuplicate {
      var i :| 0 <= i < |db.orders| && db.orders[i].requestId == q.job.req.requestId;
      assert orders[i].requestId == q.job.req.requestId;
    }
    assert forall o :: o in db.orders ==> o in orders;
  }

  lemma AfterCommitOk(cfg: Config, db: Tables, p: Proc)
    requires ProcOk(cfg, db, p) && p.stage == CommitTx
    ensures ProcOk(cfg, Merged(db, p.tx), AfterCommit(p, true))
  {
    if p.job.Send? { assert Merged(db, p.tx).orders[|db.orders|] == OrderOf(p, true); }
  }

  // ----- every step keeps it -----

  lemma WithKeepsInv(cfg: Config, s: State, pid: Pid, p: Proc)
    requires Inv(cfg, s) && ProcOk(cfg, s.db, p) && !Blocked(s, pid, p.tx)
    ensures Inv(cfg, With(s, pid, p))
  {
    hide TablesOk, ProcOk;
    forall q | q in s.procs && q != pid ensures !Contend(s.procs[q].tx, p.tx) && !Contend(p.tx, s.procs[q].tx) {
      assert !(q != pid && Contend(s.procs[q].tx, p.tx));
    }
  }

  lemma GiftKeepsInv(cfg: Config, s: State, id: int, row: GiftRow)
    requires Inv(cfg, s) && row.price >= 0
    ensures Inv(cfg, s.(db := s.db.(gifts := s.db.gifts[id := row])))
  {
    var db := s.db.(gifts := s.db.gifts[id := row]);
    forall pid | pid in s.procs ensures ProcOk(cfg, db, s.procs[pid]) {
      assert ProcOk(cfg, s.db, s.procs[pid]);
    }
  }

  lemma TouchKeepsInv(cfg: Config, s: State, u: int)
    requires Inv(cfg, s) && u !in s.db.wallets && !WalletLocked(s, u)
    ensures Inv(cfg, s.(db := s.db.(wallets := s.db.wallets[u := 0])))
  {
    var wallets := s.db.wallets[u := 0];
    assert forall v :: WalletOf(wallets, v) == WalletOf(s.db.wallets, v);
    var db := s.db.(wallets := wallets);
    forall pid | pid in s.procs ensures ProcOk(cfg, db, s.procs[pid]) {
      assert ProcOk(cfg, s.db, s.procs[pid]);
    }
  }

  lemma CommitKeepsInv(cfg: Config, s: State, pid: Pid, acked: bool)
    requires Inv(cfg, s) && Enabled(cfg, s, Commit(pid, acked, true))
    ensures Inv(cfg, Apply(cfg, s, Commit(pid, acked, true)))
  {
    hide TablesOk, ProcOk;
    var p, db := s.procs[pid], Merged(s.db, s.procs[pid].tx);
    CommitTables(cfg, s.db, p);
    AfterCommitOk(cfg, s.db, p);
    FailsOk(cfg, db, p, CallFailed);
    var t := With(s, pid, AfterCommit(p, acked));
    forall q | q in t.procs ensures ProcOk(cfg, db, t.procs[q]) {
      if q != pid { CommitKeepsOther(cfg, s.db, p.tx, s.procs[q]); }
    }
    NoContentionWithout(s, pid, AfterCommit(p, acked));
  }

  lemma NoContentionWithout(s: State, pid: Pid, p: Proc)
    requires NoContention(s.procs) && p.tx == NO_TX
    ensures NoContention(With(s, pid, p).procs)
  {
  }

  lemma ExecKeepsInv(cfg: Config, s: State, pid: Pid)
    requires Inv(cfg, s) && Enabled(cfg, s, Exec(pid, true))
    ensures Inv(cfg, With(s, pid, Statement(cfg, s.db, s.procs[pid])))
  {
    StatementOk(cfg, s.db, s.procs[pid]);
    WithKeepsInv(cfg, s, pid, Statement(cfg, s.db, s.procs[pid]));
  }

  lemma FailureKeepsInv(cfg: Config, s: State, pid: Pid)
    requires Inv(cfg, s) && pid in s.procs
    ensures Inv(cfg, With(s, pid, Fails(s.procs[pid], CallFailed)))
  {
    FailsOk(cfg, s.db, s.procs[pid], CallFailed);
    WithKeepsInv(cfg, s, pid, Fails(s.procs[pid], CallFailed));
  }

  lemma StartedOk(cfg: Config, db: Tables, job: Job)
    ensures ProcOk(cfg, db, Started(cfg, job))
  {
  }

  lemma AnsweredOk(cfg: Config, db: Tables, p: Proc, room: RoomAnswer, gate: Gate)
    requires ProcOk(cfg, db, p)
    ensures p.stage == GetRoom ==> ProcOk(cfg, db, AfterRoom(p, room)) && AfterRoom(p, room).tx == NO_TX
    ensures p.stage == CheckBan || p.stage == CheckLimit ==> ProcOk(cfg, db, AfterGate(p, gate)) && AfterGate(p, gate).tx == NO_TX
  {
  }

  lemma StartKeepsInv(cfg: Config, s: State, pid: Pid, job: Job)
    requires Inv(cfg, s)
    ensures Inv(cfg, With(s, pid, Started(cfg, job)))
  {
    hide TablesOk, ProcOk;
    StartedOk(cfg, s.db, job);
    WithKeepsInv(cfg, s, pid, Started(cfg, job));
  }

  lemma RoomKeepsInv(cfg: Config, s: State, pid: Pid, room: RoomAnswer)
    requires Inv(cfg, s) && Enabled(cfg, s, AnswerRoom(pid, room))
    ensures Inv(cfg, With(s, pid, AfterRoom(s.procs[pid], room)))
  {
    AnsweredOk(cfg, s.db, s.procs[pid], room, Pass);
    WithKeepsInv(cfg, s, pid, AfterRoom(s.procs[pid], room));
  }

  lemma GateKeepsInv(cfg: Config, s: State, pid: Pid, gate: Gate)
    requires Inv(cfg, s) && Enabled(cfg, s, AnswerGate(pid, gate))
    ensures Inv(cfg, With(s, pid, AfterGate(s.procs[pid], gate)))
  {
    AnsweredOk(cfg, s.db, s.procs[pid], RoomError, gate);
    WithKeepsInv(cfg, s, pid, AfterGate(s.procs[pid], gate));
  }

  lemma StepKeepsInv(cfg: Config, s: State, step: Step)
    requires Inv(cfg, s) && Enabled(cfg, s, step)
    ensures Inv(cfg, Apply(cfg, s, step))
  {
    hide Inv, Started, AfterRoom, AfterGate, Statement, Fails, Merged;
    match step
    case SetGift(id, row) => GiftKeepsInv(cfg, s, id, row);
    case TouchWallet(u) => TouchKeepsInv(cfg, s, u);
    case Start(pid, job) => StartKeepsInv(cfg, s, pid, job);
    case AnswerRoom(pid, room) => RoomKeepsInv(cfg, s, pid, room);
    case AnswerGate(pid, gate) => GateKeepsInv(cfg, s, pid, gate);
    case Exec(pid, ok) => if ok { ExecKeepsInv(cfg, s, pid); } else { FailureKeepsInv(cfg, s, pid); }
    case Commit(pid, acked, applied) =>
      if applied { CommitKeepsInv(cfg, s, pid, acked); } else { FailureKeepsInv(cfg, s, pid); }
    case Crash(pid) => CrashKeepsInv(cfg, s, pid);
  }

  lemma CrashKeepsInv(cfg: Config, s: State, pid: Pid)
    requires Inv(cfg, s)
    ensures Inv(cfg, s.(procs := map q | q in s.procs && q != pid :: s.procs[q]))
  {
    hide TablesOk, ProcOk;
  }

  lemma InitInv(cfg: Config)
    ensures Inv(cfg, Init())
  {
  }

  lemma {:induction false} RunKeepsInv(cfg: Config, run: seq<Step>)
    requires Run(cfg, run).Some?
    ensures Inv(cfg, Run(cfg, run).value)
  {
    if run == [] {
      InitInv(cfg);
    } else {
      var before := run[..|run| - 1];
      RunKeepsInv(cfg, before);
      StepKeepsInv(cfg, Run(cfg, before).value, run[|run| - 1]);
    }
  }

  lemma ReachableInv(cfg: Config, s: State)
    requires Reachable(cfg, s)
    ensures Inv(cfg, s)
  {
    var run :| Run(cfg, run) == Some(s);
    RunKeepsInv(cfg, run);
  }

  lemma ReachableStep(cfg: Config, s: State, step: Step)
    requires Reachable(cfg, s) && Enabled(cfg, s, step)
    ensures Reachable(cfg, Apply(cfg, s, step))
  {
    var run :| Run(cfg, run) == Some(s);
    assert (run + [step])[..|run|] == run;
    assert Run(cfg, run + [step]) == Some(Apply(cfg, s, step));
  }
}
