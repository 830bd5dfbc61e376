/**
 gift.Repository.Create, gift.Service.Send, wallet.Repository.Credit and Balance as code. Each statement is
 executed by one process while any number of other calls take steps before it; a statement may fail, and one
 that waits too long for a lock fails too. Every execution is a run of the step system of module Money.
 */
module MoneyWorker {
  import opened Basics
  import opened Events
  import opened Money
  import opened MoneyHistory
  import opened MoneySafety

  class Database {
    const cfg: Config
    var st: State
    ghost var run: seq<Step>

    constructor (cfg: Config)
      ensures Valid() && this.cfg == cfg && st == Init()
    {
      this.cfg, st, run := cfg, Init(), [];
    }

    ghost predicate Valid()
      reads this
    {
      Run(cfg, run) == Some(st)
    }

    ghost predicate At(pid: Pid, p: Proc)
      reads this
    {
      Valid() && pid in st.procs && st.procs[pid] == p
    }

    method Do(step: Step)
      requires Valid() && Enabled(cfg, st, step)
      modifies this
      ensures Valid() && run == old(run) + [step] && st == Apply(cfg, old(st), step)
    {
      assert (run + [step])[..|run|] == run;
      st, run := Apply(cfg, st, step), run + [step];
    }

    /** Whatever the other calls do before pid's next statement. */
    method Others(pid: Pid)
      requires Valid()
      modifies this
      ensures Valid() && old(run) <= run
      ensures pid in st.procs <==> pid in old(st.procs)
      ensures pid in st.procs ==> st.procs[pid] == old(st.procs[pid])
    {
    }

    /** Whatever the other calls do between two statements outside any transaction. */
    method Wait()
      requires Valid()
      modifies this
      ensures Valid() && old(run) <= run
    {
    }

    /**
     The next statement of a call: its effect on the tables as they are when it runs, or an error. A statement that
     `works` fails only by waiting for another transaction.
     */
    method Query(pid: Pid, p: Proc, works: bool) returns (next: Proc)
      requires At(pid, p) && IsStatement(p)
      modifies this
      ensures At(pid, next) && old(run) <= run
      ensures next == Statement(cfg, st.db, p) || (next == Fails(p, CallFailed) && (works ==> Blocked(st, pid, Statement(cfg, st.db, p).tx)))
      ensures ProcOk(cfg, st.db, p)
      ensures next == Statement(cfg, st.db, p) && p.stage == SelectGift ==> TablesWere(cfg, run, |old(run)|, st.db)
      ensures p.stage == UpdateWallet && next.stage == Finished(Failed(InsufficientBalance)) ==>
        WalletOf(st.db.wallets, UserOf(p.job)) + DeltaOf(p) < 0
    {
      hide Money.Run, Statement, ProcOk, Contend;
      Others(pid);
      CallIsOk(cfg, run, st, pid);
      var broken: bool := *;
      var ok := (works || !broken) && !Blocked(st, pid, Statement(cfg, st.db, p).tx);
      if p.stage == UpdateWallet { ChargeFailsShort(cfg, st.db, p); }
      next := if ok then Statement(cfg, st.db, p) else Fails(p, CallFailed);
      ghost var before := run;
      SameBlocked(st, pid, next, Statement(cfg, st.db, p).tx);
      Do(Exec(pid, ok));
      assert run[..|before|] == before;
    }

    /** A statement inside Create's transaction, seen only as progress or failure. */
    method Advance(pid: Pid, p: Proc, works: bool) returns (next: Proc)
      requires At(pid, p) && IsStatement(p) && 1 <= Rank(p.stage)
      modifies this
      ensures At(pid, next) && old(run) <= run && Follows(p, next)
      ensures next.stage.Finished? ==> Excused(cfg, st, pid, p, works, next.stage.result.cause)
      ensures p.stage == UpdateWallet && next.stage == Finished(Failed(InsufficientBalance)) ==>
        WalletOf(st.db.wallets, UserOf(p.job)) + DeltaOf(p) < 0
    {
      next := Query(pid, p, works);
      StatementFollows(cfg, st, pid, p);
    }

    method CommitTransaction(pid: Pid, p: Proc, works: bool) returns (next: Proc)
      requires At(pid, p) && p.stage == CommitTx
      modifies this
      ensures At(pid, next) && old(run) <= run
      ensures next == AfterCommit(p, true) || (!works && next == Fails(p, CallFailed))
      ensures next == AfterCommit(p, true) ==>
        st.db.ledger != [] && st.db.ledger[|st.db.ledger| - 1] == LedgerOf(p) &&
        WalletOf(st.db.wallets, UserOf(p.job)) == p.after
    {
      Others(pid);
      RunKeepsInv(cfg, run);
      assert ProcOk(cfg, st.db, p);
      var acked: bool := *;
      var applied: bool := *;
      next := AfterCommit(p, works || acked);
      Do(Commit(pid, works || acked, works || acked || applied));
    }
  }

  lemma CallIsOk(cfg: Config, run: seq<Step>, s: State, pid: Pid)
    requires Money.Run(cfg, run) == Some(s) && pid in s.procs
    ensures ProcOk(cfg, s.db, s.procs[pid])
  {
    RunKeepsInv(cfg, run);
  }

  lemma SameBlocked(s: State, pid: Pid, p: Proc, tx: Tx)
    ensures Blocked(With(s, pid, p), pid, tx) <==> Blocked(s, pid, tx)
  {
    hide Contend;
    if Blocked(s, pid, tx) {
      var q :| q in s.procs && q != pid && Contend(s.procs[q].tx, tx);
      assert With(s, pid, p).procs[q] == s.procs[q];
    }
  }

  /** Another transaction has written something. */
  predicate OthersOpen(s: State, pid: Pid) {
    exists q | q in s.procs :: q != pid && s.procs[q].tx != NO_TX
  }

  /** The tables were these at some moment since step `from`. */
  ghost predicate TablesWere(cfg: Config, run: seq<Step>, from: nat, db: Tables) {
    exists k :: from <= k <= |run| && Money.Run(cfg, run[..k]).Some? && Money.Run(cfg, run[..k]).value.db == db
  }

  lemma TablesStay(cfg: Config, run: seq<Step>, longer: seq<Step>, from: nat, earlier: nat, db: Tables)
    requires TablesWere(cfg, run, from, db) && run <= longer && earlier <= from
    ensures TablesWere(cfg, longer, earlier, db)
  {
    var k :| from <= k <= |run| && Money.Run(cfg, run[..k]).Some? && Money.Run(cfg, run[..k]).value.db == db;
    assert longer[..k] == run[..k];
  }

  /** A drawn number that is in use already, or another open transaction. */
  predicate Hindered(s: State, pid: Pid, job: Job) {
    || OthersOpen(s, pid) || HasTransaction(s.db.ledger, TransactionNo(job))
    || (job.Send? && (HasOrderNo(s.db.orders, job.ids.orderNo) || HasEvent(s.db.events, job.ids.eventId)))
  }

  /** Why a statement inside the transaction ends the call. */
  predicate Excused(cfg: Config, s: State, pid: Pid, p: Proc, works: bool, cause: Failure) {
    match cause
    case InsufficientBalance => p.stage == UpdateWallet && p.job.Send?
    case OutboxNotConfigured => p.job.Send? && (p.job.ids.eventId == "" || cfg.topic == "")
    case CallFailed => works ==>
      || Hindered(s, pid, p.job)
      || (p.job.Credit? && !(0 <= WalletOf(s.db.wallets, p.job.userId) + p.job.amount <= MAX_INT64))
    case _ => false
  }

  /** Inside a transaction a statement moves to the next one, keeping the call's data, or ends the call. */
  predicate Follows(p: Proc, next: Proc) {
    && next.job == p.job && next.gift == p.gift && next.anchor == p.anchor
    && (if next.stage.Finished?
        then next.stage.result.Failed? && next.stage.result.cause != IdempotencyConflict &&
             (next.stage.result.cause == InsufficientBalance ==> p.stage == UpdateWallet)
        else
          && Rank(next.stage) == Rank(p.stage) + (if p.stage == InsertLedger && p.job.Credit? then 3 else 1)
          && (next.tx.order.Some? <==> p.tx.order.Some?)
          && (next.tx.wallet.Some? <==> p.tx.wallet.Some? || p.stage == EnsureWallet))
  }

  lemma StatementFollows(cfg: Config, s: State, pid: Pid, p: Proc)
    requires IsStatement(p) && 1 <= Rank(p.stage) && PrivateOk(s.db.wallets, p)
    requires p.tx.wallet.Some? ==> p.tx.wallet.value.userId == UserOf(p.job)
    ensures Follows(p, Statement(cfg, s.db, p)) && Follows(p, Fails(p, CallFailed))
    ensures var next := Statement(cfg, s.db, p);
      next.stage.Finished? ==> Excused(cfg, s, pid, p, true, next.stage.result.cause)
  {
    hide HasTransaction, HasEvent, HasOrderNo, OthersOpen;
  }

  /** The charge is refused only when the committed balance does not cover it. */
  lemma ChargeFailsShort(cfg: Config, db: Tables, p: Proc)
    requires ProcOk(cfg, db, p) && p.stage == UpdateWallet && IsStatement(p)
    ensures Statement(cfg, db, p).stage == Finished(Failed(InsufficientBalance)) ==>
      WalletOf(db.wallets, UserOf(p.job)) + DeltaOf(p) < 0
  {
    if p.job.Send? { assert p.gift.price * p.job.req.count >= 0; }
  }

  /** What a finished Send may claim about the tables. */
  ghost predicate Justified(st: State, job: Job, r: Result)
    requires job.Send?
  {
    && (r.Sent? ==> ByRequestId(st.db.orders, job.req.requestId) == Some(r.order) && Asked(r.order, job.req) && r.order.success)
    && (r.Sent? && !r.replay ==> r.order.orderNo == job.ids.orderNo)
    && (r == Failed(IdempotencyConflict) ==>
          ByRequestId(st.db.orders, job.req.requestId).Some? && !Asked(ByRequestId(st.db.orders, job.req.requestId).value, job.req))
  }

  lemma SentIsJustified(cfg: Config, run: seq<Step>, st: State, pid: Pid)
    requires Run(cfg, run) == Some(st) && pid in st.procs && st.procs[pid].job.Send?
    requires st.procs[pid].stage.Finished? && st.procs[pid].stage.result.Sent?
    requires st.procs[pid].stage.result.replay || st.procs[pid].stage.result.order.orderNo == st.procs[pid].job.ids.orderNo
    ensures Justified(st, st.procs[pid].job, st.procs[pid].stage.result)
  {
    SuccessIsTheOrder(cfg, st, pid);
  }

  lemma OrdersAreUnique(cfg: Config, run: seq<Step>, s: State)
    requires Money.Run(cfg, run) == Some(s)
    ensures OrdersOk(s.db.orders)
  {
    RunKeepsInv(cfg, run);
  }

  class GiftRepository {
    const db: Database

    constructor (db: Database)
      ensures this.db == db
    {
      this.db := db;
    }

    /** A lookup by request id that ends the call. */
    method Lookup(pid: Pid, p: Proc, works: bool) returns (r: Result)
      requires db.At(pid, p) && p.job.Send? && (p.stage.LookupOr? || p.stage == LookupDuplicate)
      requires p.stage.LookupOr? ==> p.stage.otherwise != IdempotencyConflict
      modifies db
      ensures db.Valid() && old(db.run) <= db.run && Justified(db.st, p.job, r)
      ensures r.Sent? ==> r.replay
      ensures pid in db.st.procs && db.st.procs[pid].job == p.job && db.st.procs[pid].stage == Finished(r)
      ensures (!works && r == Failed(CallFailed)) ||
        Replies(db.st.db.orders, p.job.req, if p.stage.LookupOr? then p.stage.otherwise else OrderNotFound, r)
      ensures p.stage == LookupDuplicate ==> r != Failed(OrderNotFound)
    {
      hide Money.Run, Replies, ByRequestId;
      var next := db.Query(pid, p, works);
      r := next.stage.result;
      OrdersAreUnique(db.cfg, db.run, db.st);
      LookupReplies(db.st.db.orders, p, if p.stage.LookupOr? then p.stage.otherwise else OrderNotFound);
      if r.Sent? { SentIsJustified(db.cfg, db.run, db.st, pid); }
      if p.stage == LookupDuplicate { FindRequest(db.st.db.orders, p.job.req.requestId); }
    }

    /** The call's data stay the same from one statement to the next. */
    static predicate SameData(p: Proc, q: Proc) {
      q.job == p.job && q.gift == p.gift && q.anchor == p.anchor
    }

    /** Why a charge that has its order row written is given up. */
    static predicate Refuses(cfg: Config, s: State, pid: Pid, p: Proc, works: bool, cause: Failure)
      requires p.job.Send?
    {
      match cause
      case InsufficientBalance => WalletOf(s.db.wallets, p.job.req.userId) < p.gift.price * p.job.req.count
      case OutboxNotConfigured => p.job.ids.eventId == "" || cfg.topic == ""
      case CallFailed => works ==> Hindered(s, pid, p.job)
      case _ => false
    }

    /** The two wallet statements and the balance read. */
    method Pay(pid: Pid, p: Proc, works: bool) returns (q: Proc)
      requires db.At(pid, p) && p.job.Send? && p.stage == EnsureWallet && p.tx.order.Some?
      modifies db
      ensures db.At(pid, q) && old(db.run) <= db.run && SameData(p, q)
      ensures (q.stage == InsertLedger && q.tx.order.Some?) ||
        (q.stage.Finished? && q.stage.result.Failed? && Refuses(db.cfg, db.st, pid, p, works, q.stage.result.cause))
    {
      hide Hindered;
      q := db.Advance(pid, p, works);
      if q.stage.Finished? { return; }
      q := db.Advance(pid, q, works);
      if q.stage.Finished? { return; }
      q := db.Advance(pid, q, works);
    }

    /** The ledger row, the order's final status and the outbox event. */
    method Record(pid: Pid, p: Proc, works: bool) returns (q: Proc)
      requires db.At(pid, p) && p.job.Send? && p.stage == InsertLedger && p.tx.order.Some?
      modifies db
      ensures db.At(pid, q) && old(db.run) <= db.run && SameData(p, q)
      ensures q.stage == CommitTx || (q.stage.Finished? && q.stage.result.Failed? &&
        Refuses(db.cfg, db.st, pid, p, works, q.stage.result.cause))
    {
      hide Hindered;
      q := db.Advance(pid, p, works);
      if q.stage.Finished? { return; }
      q := db.Advance(pid, q, works);
      if q.stage.Finished? { return; }
      q := db.Advance(pid, q, works);
    }

    /** COMMIT, then the read that builds the answer; both may fail although the charge stands. */
    method Conclude(pid: Pid, p: Proc, works: bool) returns (r: Result)
      requires db.At(pid, p) && p.job.Send? && p.stage == CommitTx
      modifies db
      ensures db.Valid() && old(db.run) <= db.run && Justified(db.st, p.job, r)
      ensures pid in db.st.procs && db.st.procs[pid].job == p.job && db.st.procs[pid].stage == Finished(r)
      ensures if r.Sent? then !r.replay && Tells(r.order, p.job.req, p.job.ids, p.anchor, p.gift.price)
              else r == Failed(CallFailed) && !works
    {
      var q := db.CommitTransaction(pid, p, works);
      if q.stage.Finished? { return q.stage.result; }
      var back := db.Query(pid, q, works);
      OrdersAreUnique(db.cfg, db.run, db.st);
      ReadBackOk(db.cfg, db.st.db, q);
      r := back.stage.result;
      if r.Sent? { SentIsJustified(db.cfg, db.run, db.st, pid); }
    }

    /** The gift was on sale at this price at some moment of the call. */
    static ghost predicate SoldAt(cfg: Config, run: seq<Step>, from: nat, giftId: int, price: int) {
      exists db :: TablesWere(cfg, run, from, db) && giftId in db.gifts && db.gifts[giftId].online && db.gifts[giftId].price == price
    }

    /** Why Create returns an error: what the tables were at some moment of the call, or are now. */
    static ghost predicate Explained(cfg: Config, run: seq<Step>, from: nat, s: State, pid: Pid, job: Job, works: bool, cause: Failure)
      requires job.Send?
    {
      var gift, count := job.req.giftId, job.req.count;
      match cause
      case GiftNotFound => exists db :: TablesWere(cfg, run, from, db) && gift !in db.gifts
      case GiftOffline => exists db :: TablesWere(cfg, run, from, db) && gift in db.gifts && !db.gifts[gift].online
      case AmountOverflow => exists db :: (
        && TablesWere(cfg, run, from, db) && gift in db.gifts
        && (count <= 0 || db.gifts[gift].price < 0 || db.gifts[gift].price * count > MAX_INT64))
      case InsufficientBalance =>
        exists price :: SoldAt(cfg, run, from, gift, price) && WalletOf(s.db.wallets, job.req.userId) < price * count
      case OutboxNotConfigured => job.ids.eventId == "" || cfg.topic == ""
      case IdempotencyConflict => HasRequest(s.db.orders, job.req.requestId)
      case CallFailed => works ==> Hindered(s, pid, job)
      case _ => false
    }

    /**
     A new order is committed and read back, or the order already committed under the request id is returned, or
     there is an error with its reason. A new order has the fields of this call and the price of its SELECT.
     */
    method Create(pid: Pid, p: Proc, works: bool) returns (r: Result)
      requires db.At(pid, p) && p.job.Send? && p.stage == SelectGift && p.tx == NO_TX
      modifies db
      ensures db.Valid() && old(db.run) <= db.run && Justified(db.st, p.job, r)
      ensures pid in db.st.procs && db.st.procs[pid].job == p.job && db.st.procs[pid].stage == Finished(r)
      ensures r.Sent? && !r.replay ==>
        && Tells(r.order, p.job.req, p.job.ids, p.anchor, r.order.unitPrice)
        && SoldAt(db.cfg, db.run, |old(db.run)|, p.job.req.giftId, r.order.unitPrice)
      ensures r.Failed? ==> Explained(db.cfg, db.run, |old(db.run)|, db.st, pid, p.job, works, r.cause)
    {
      hide Money.Run, Statement, ByRequestId, SameRequest, OrderOf, LedgerOf, EventFor, Merged, Hindered, TablesWere;
      ghost var from := |db.run|;
      var q, tables := Select(pid, p, works);
      if q.stage.Finished? { return q.stage.result; }
      ghost var selected := db.run;
      r := Write(pid, q, works);
      TablesStay(db.cfg, selected, db.run, from, from, tables);
      assert SoldAt(db.cfg, db.run, from, p.job.req.giftId, q.gift.price);
    }

    /** The SELECT of the gift and its checks. */
    method Select(pid: Pid, p: Proc, works: bool) returns (q: Proc, ghost tables: Tables)
      requires db.At(pid, p) && p.job.Send? && p.stage == SelectGift && p.tx == NO_TX
      modifies db
      ensures db.At(pid, q) && old(db.run) <= db.run && q.job == p.job && q.anchor == p.anchor && q.tx == NO_TX
      ensures q.stage == InsertOrder || (q.stage.Finished? && q.stage.result.Failed? &&
        Explained(db.cfg, db.run, |old(db.run)|, db.st, pid, p.job, works, q.stage.result.cause) &&
        q.stage.result.cause != IdempotencyConflict)
      ensures q.stage == InsertOrder ==> TablesWere(db.cfg, db.run, |old(db.run)|, tables)
      ensures q.stage == InsertOrder ==>
        p.job.req.giftId in tables.gifts && tables.gifts[p.job.req.giftId] == q.gift && q.gift.online
    {
      hide Money.Run, Hindered, TablesWere, ProcOk;
      q := db.Query(pid, p, works);
      tables := db.st.db;
      OverflowsIff(if p.job.req.giftId in tables.gifts then tables.gifts[p.job.req.giftId].price else 0, p.job.req.count);
      BlockedIsHindered(db.st, pid, p.job, Statement(db.cfg, tables, p).tx);
    }

    /** Create after its SELECT: the order row, or the order that has the request id already. */
    method Write(pid: Pid, p: Proc, works: bool) returns (r: Result)
      requires db.At(pid, p) && p.job.Send? && p.stage == InsertOrder && p.tx == NO_TX
      modifies db
      ensures db.Valid() && old(db.run) <= db.run && Justified(db.st, p.job, r)
      ensures pid in db.st.procs && db.st.procs[pid].job == p.job && db.st.procs[pid].stage == Finished(r)
      ensures r.Sent? && !r.replay ==> Tells(r.order, p.job.req, p.job.ids, p.anchor, p.gift.price)
      ensures r.Failed? ==> (
        || Refuses(db.cfg, db.st, pid, p, works, r.cause)
        || (r.cause == IdempotencyConflict && HasRequest(db.st.db.orders, p.job.req.requestId)))
    {
      hide Money.Run, ByRequestId, SameRequest, OrderOf, LedgerOf, EventFor, Merged, Tells, ProcOk, Replies, HasRequest;
      var q := db.Query(pid, p, works);
      if q.stage.Finished? {
        BlockedIsHindered(db.st, pid, p.job, Statement(db.cfg, db.st.db, p).tx);
        return q.stage.result;
      }
      if q.stage == LookupDuplicate {
        r := Lookup(pid, q, works);
        if r.Failed? { ConflictOnly(db.st.db.orders, p.job.req, r, works); }
        return;
      }
      r := Charge(pid, q, works);
    }

    /** The transaction after its order row. */
    method Charge(pid: Pid, p: Proc, works: bool) returns (r: Result)
      requires db.At(pid, p) && p.job.Send? && p.stage == EnsureWallet && p.tx.order.Some?
      modifies db
      ensures db.Valid() && old(db.run) <= db.run && Justified(db.st, p.job, r)
      ensures pid in db.st.procs && db.st.procs[pid].job == p.job && db.st.procs[pid].stage == Finished(r)
      ensures if r.Sent? then !r.replay && Tells(r.order, p.job.req, p.job.ids, p.anchor, p.gift.price)
              else r.Failed? && Refuses(db.cfg, db.st, pid, p, works, r.cause)
    {
      hide Money.Run, Statement, ByRequestId, SameRequest, OrderOf, LedgerOf, EventFor, Merged, Tells, Hindered;
      var paid := Pay(pid, p, works);
      if paid.stage.Finished? { return paid.stage.result; }
      var recorded := Record(pid, paid, works);
      if recorded.stage.Finished? { return recorded.stage.result; }
      r := Conclude(pid, recorded, works);
    }
  }

  lemma BlockedIsHindered(s: State, pid: Pid, job: Job, tx: Tx)
    ensures Blocked(s, pid, tx) ==> Hindered(s, pid, job) && tx != NO_TX
  {
    hide HasTransaction, HasOrderNo, HasEvent;
    if Blocked(s, pid, tx) {
      var q :| q in s.procs && q != pid && Contend(s.procs[q].tx, tx);
      assert s.procs[q].tx != NO_TX;
    }
  }

  /** A lookup that works fails only with the conflict, which needs an order of the request, or as told. */
  lemma ConflictOnly(orders: seq<Order>, req: Request, r: Result, works: bool)
    requires r.Failed? && r != Failed(OrderNotFound)
    requires (!works && r == Failed(CallFailed)) || Replies(orders, req, OrderNotFound, r)
    ensures (!works && r == Failed(CallFailed)) || (r == Failed(IdempotencyConflict) && HasRequest(orders, req.requestId))
  {
    if HasRequest(orders, req.requestId) {
      var i :| 0 <= i < |orders| && orders[i].requestId == req.requestId;
      assert orders[i] in orders;
    }
  }

  class GiftService {
    const store: GiftRepository

    constructor (store: GiftRepository)
      ensures this.store == store
    {
      this.store := store;
    }

    /** Every error of Send but those of Create has one of these reasons. */
    static ghost predicate Explained(cfg: Config, run: seq<Step>, from: nat, s: State, pid: Pid, req: Request, ids: Ids,
                                     room: RoomAnswer, ban: Gate, limit: Gate, works: bool, cause: Failure) {
      match cause
      case InvalidCount => req.count < 1 || req.count > (if cfg.maxCount > 0 then cfg.maxCount else 100)
      case InvalidRequestId => !WellFormed(req.requestId)
      case CallFailed => works ==> (
        || (room.RoomLiving? && (ban == GateError || (ban == Pass && limit == GateError)))
        || Hindered(s, pid, Job.Send(req, ids)))
      case _ => (
        || Refused(room, ban, limit, cause)
        || GiftRepository.Explained(cfg, run, from, s, pid, Job.Send(req, ids), works, cause))
    }

    /**
     Send, with the answers of the room service and of the limiter as inputs. When the room, the ban or the
     limiter refuses, the call still answers with the original order or the conflict if the request is known. An
     order it created has exactly the fields of this call, the anchor its room lookup answered, and a price at
     which the gift was on sale during the call. Every error has its reason.
     */
    method Send(pid: Pid, req: Request, ids: Ids, room: RoomAnswer, ban: Gate, limit: Gate, works: bool) returns (r: Result)
      requires store.db.Valid() && pid !in store.db.st.procs
      modifies store.db
      ensures store.db.Valid() && old(store.db.run) <= store.db.run
      ensures Justified(store.db.st, Job.Send(req, ids), r)
      ensures r == Failed(InvalidCount) <==>
        req.count < 1 || req.count > (if store.db.cfg.maxCount > 0 then store.db.cfg.maxCount else 100)
      ensures r != Failed(InvalidCount) ==> (r == Failed(InvalidRequestId) <==> !WellFormed(req.requestId))
      ensures r != Failed(InvalidCount) && r != Failed(InvalidRequestId) ==>
        forall refusal :: Refused(room, ban, limit, refusal) ==>
          (!works && r == Failed(CallFailed)) || Replies(store.db.st.db.orders, req, refusal, r)
      ensures r.Sent? && !r.replay ==>
        && room.RoomLiving? && Tells(r.order, req, ids, room.anchorId, r.order.unitPrice)
        && GiftRepository.SoldAt(store.db.cfg, store.db.run, |old(store.db.run)|, req.giftId, r.order.unitPrice)
      ensures r.Failed? ==>
        Explained(store.db.cfg, store.db.run, |old(store.db.run)|, store.db.st, pid, req, ids, room, ban, limit, works, r.cause)
    {
      hide TablesWere, Hindered, Tells, Replies, Statement, ByRequestId, SameRequest, Money.Run, ProcOk, Justified,
        GiftRepository.Explained, GiftRepository.SoldAt;
      WellFormedIff(req.requestId);
      hide WellFormed, ValidRequestId;
      store.db.Do(Start(pid, Job.Send(req, ids)));
      var p := Started(store.db.cfg, Job.Send(req, ids));
      if p.stage.Finished? {
        FailureIsJustified(store.db.st, Job.Send(req, ids), p.stage.result);
        return p.stage.result;
      }
      var q := AskGates(pid, p, room, ban, limit);
      r := Answer(pid, q, req, ids, room, ban, limit, works, |old(store.db.run)|);
    }

    /** What Send answers once the gates have spoken. */
    method Answer(pid: Pid, q: Proc, req: Request, ids: Ids, ghost room: RoomAnswer, ghost ban: Gate, ghost limit: Gate,
                  works: bool, ghost from: nat) returns (r: Result)
      requires store.db.At(pid, q) && q.job == Job.Send(req, ids) && q.tx == NO_TX && from <= |store.db.run|
      requires Decided(q, room, ban, limit)
      modifies store.db
      ensures store.db.Valid() && old(store.db.run) <= store.db.run && Justified(store.db.st, q.job, r)
      ensures r != Failed(InvalidCount) && r != Failed(InvalidRequestId)
      ensures forall refusal :: Refused(room, ban, limit, refusal) ==>
        (!works && r == Failed(CallFailed)) || Replies(store.db.st.db.orders, req, refusal, r)
      ensures r.Sent? && !r.replay ==>
        && room.RoomLiving? && Tells(r.order, req, ids, room.anchorId, r.order.unitPrice)
        && GiftRepository.SoldAt(store.db.cfg, store.db.run, from, req.giftId, r.order.unitPrice)
      ensures r.Failed? ==>
        Explained(store.db.cfg, store.db.run, from, store.db.st, pid, req, ids, room, ban, limit, works, r.cause)
    {
      hide TablesWere, Hindered, Tells, Replies, Statement, ByRequestId, SameRequest, Money.Run, ProcOk, Justified, Rank,
        GiftRepository.Explained, GiftRepository.SoldAt, WellFormed, Enabled, Apply;
      if q.stage.Finished? {
        FailureIsJustified(store.db.st, q.job, q.stage.result);
        return q.stage.result;
      }
      if q.stage.LookupOr? {
        r := store.Lookup(pid, q, works);
        RefusalIsReplied(store.db.st.db.orders, req, q.stage.otherwise, r);
        ConflictIsExplained(store.db.cfg, store.db.run, from, store.db.st, pid, q.job, works);
      } else {
        r := Charge(pid, q, works, from);
        ChargeIsExplained(store.db.cfg, store.db.run, from, store.db.st, pid, req, ids, room, ban, limit, works, r);
      }
    }

    /** Where the gates leave a call. */
    static predicate Decided(q: Proc, room: RoomAnswer, ban: Gate, limit: Gate) {
      if q.stage.LookupOr? then
        Refused(room, ban, limit, q.stage.otherwise) && q.stage.otherwise in {RoomLookupFailed, NotLiving, Banned, RateLimited}
      else if q.stage.Finished? then
        && q.stage.result == Failed(CallFailed) && room.RoomLiving?
        && (ban == GateError || (ban == Pass && limit == GateError))
      else q.stage == SelectGift && room == RoomLiving(q.anchor) && ban == Pass && limit == Pass
    }

    /** Create, with reasons counted from the beginning of the call. */
    method Charge(pid: Pid, q: Proc, works: bool, ghost from: nat) returns (r: Result)
      requires store.db.At(pid, q) && q.job.Send? && q.stage == SelectGift && q.tx == NO_TX && from <= |store.db.run|
      modifies store.db
      ensures store.db.Valid() && old(store.db.run) <= store.db.run && Justified(store.db.st, q.job, r)
      ensures r.Sent? && !r.replay ==>
        && Tells(r.order, q.job.req, q.job.ids, q.anchor, r.order.unitPrice)
        && GiftRepository.SoldAt(store.db.cfg, store.db.run, from, q.job.req.giftId, r.order.unitPrice)
      ensures r.Failed? ==>
        GiftRepository.Explained(store.db.cfg, store.db.run, from, store.db.st, pid, q.job, works, r.cause)
    {
      ghost var before := |store.db.run|;
      r := store.Create(pid, q, works);
      hide *;
      ExplainedEarlier(store.db.cfg, store.db.run, before, from, store.db.st, pid, q.job, works, r);
    }

    /** The room lookup, the ban lookup and the limiter, each asked only if the one before let the call pass. */
    method AskGates(pid: Pid, p: Proc, room: RoomAnswer, ban: Gate, limit: Gate) returns (q: Proc)
      requires store.db.At(pid, p) && p.job.Send? && p.stage == GetRoom && p.tx == NO_TX
      modifies store.db
      ensures store.db.At(pid, q) && old(store.db.run) <= store.db.run && q.job == p.job && q.tx == NO_TX
      ensures Decided(q, room, ban, limit)
      ensures forall refusal :: Refused(room, ban, limit, refusal) ==> q.stage == LookupOr(refusal)
    {
      hide Money.Run, Statement, Merged, ByRequestId;
      store.db.Others(pid);
      store.db.Do(AnswerRoom(pid, room));
      q := AfterRoom(p, room);
      if q.stage.LookupOr? { return; }
      store.db.Others(pid);
      store.db.Do(AnswerGate(pid, ban));
      q := AfterGate(q, ban);
      if ban != Pass { return; }
      store.db.Others(pid);
      store.db.Do(AnswerGate(pid, limit));
      q := AfterGate(q, limit);
    }
  }

  lemma FailureIsJustified(s: State, job: Job, r: Result)
    requires job.Send? && r.Failed? && r.cause != IdempotencyConflict
    ensures Justified(s, job, r)
  {
  }

  lemma ConflictIsExplained(cfg: Config, run: seq<Step>, from: nat, s: State, pid: Pid, job: Job, works: bool)
    requires job.Send?
    ensures HasRequest(s.db.orders, job.req.requestId) ==>
      GiftRepository.Explained(cfg, run, from, s, pid, job, works, IdempotencyConflict)
  {
  }

  lemma ChargeIsExplained(cfg: Config, run: seq<Step>, from: nat, s: State, pid: Pid, req: Request, ids: Ids,
                          room: RoomAnswer, ban: Gate, limit: Gate, works: bool, r: Result)
    requires r.Failed? ==> GiftRepository.Explained(cfg, run, from, s, pid, Job.Send(req, ids), works, r.cause)
    ensures r.Failed? ==>
      && r.cause != InvalidCount && r.cause != InvalidRequestId
      && GiftService.Explained(cfg, run, from, s, pid, req, ids, room, ban, limit, works, r.cause)
  {
    hide Hindered, TablesWere, WellFormed;
  }

  /** What a refused call answers is the refusal, or the conflict with an order of the request. */
  lemma RefusalIsReplied(orders: seq<Order>, req: Request, refusal: Failure, r: Result)
    ensures Replies(orders, req, refusal, r) && r.Failed? ==>
      r.cause == refusal || (r.cause == IdempotencyConflict && HasRequest(orders, req.requestId))
  {
    if HasRequest(orders, req.requestId) {
      var i :| 0 <= i < |orders| && orders[i].requestId == req.requestId;
      assert orders[i] in orders;
    }
  }

  /** Reasons found since a later step are reasons since an earlier one. */
  lemma ExplainedEarlier(cfg: Config, run: seq<Step>, from: nat, earlier: nat, s: State, pid: Pid, job: Job, works: bool, r: Result)
    requires job.Send? && earlier <= from
    ensures r.Failed? && GiftRepository.Explained(cfg, run, from, s, pid, job, works, r.cause) ==>
      GiftRepository.Explained(cfg, run, earlier, s, pid, job, works, r.cause)
    ensures forall price :: GiftRepository.SoldAt(cfg, run, from, job.req.giftId, price) ==>
      GiftRepository.SoldAt(cfg, run, earlier, job.req.giftId, price)
  {
    hide TablesWere, Hindered;
    forall db | TablesWere(cfg, run, from, db) ensures TablesWere(cfg, run, earlier, db) {
      TablesStay(cfg, run, run, from, earlier, db);
    }
    forall price | GiftRepository.SoldAt(cfg, run, from, job.req.giftId, price)
      ensures GiftRepository.SoldAt(cfg, run, earlier, job.req.giftId, price) {
      var db :| TablesWere(cfg, run, from, db) && job.req.giftId in db.gifts && db.gifts[job.req.giftId].online &&
        db.gifts[job.req.giftId].price == price;
      assert TablesWere(cfg, run, earlier, db);
    }
    if r.Failed? && r.cause == InsufficientBalance && GiftRepository.Explained(cfg, run, from, s, pid, job, works, r.cause) {
      var price :| GiftRepository.SoldAt(cfg, run, from, job.req.giftId, price) &&
        WalletOf(s.db.wallets, job.req.userId) < price * job.req.count;
      assert GiftRepository.SoldAt(cfg, run, earlier, job.req.giftId, price);
    }
  }

  /** The first gate that refuses the call, if the earlier ones let it pass. */
  predicate Refused(room: RoomAnswer, ban: Gate, limit: Gate, refusal: Failure) {
    match room
    case RoomError => refusal == RoomLookupFailed
    case RoomClosed => refusal == NotLiving
    case RoomLiving(_) =>
      match ban
      case Refuse => refusal == Banned
      case GateError => false
      case Pass => limit == Refuse && refusal == RateLimited
  }

  class WalletRepository {
    const db: Database

    constructor (db: Database)
      ensures this.db == db
    {
      this.db := db;
    }

    /** A reported credit is in the ledger, starts at the balance it found and ends at the balance it returns. */
    method Credit(pid: Pid, userId: int, amount: int, transactionNo: string, bizId: string, works: bool) returns (r: Result)
      requires db.Valid() && pid !in db.st.procs
      modifies db
      ensures db.Valid() && old(db.run) <= db.run
      ensures r.Credited? ==>
        && db.st.db.ledger != [] && WalletOf(db.st.db.wallets, userId) == r.balance
        && db.st.db.ledger[|db.st.db.ledger| - 1] ==
             LedgerRow(transactionNo, userId, DEV_CREDIT, bizId, amount, r.balance - amount, r.balance)
      ensures !r.Sent?
      ensures works && r.Failed? ==>
        || Hindered(db.st, pid, Job.Credit(userId, amount, transactionNo, bizId))
        || !(0 <= WalletOf(db.st.db.wallets, userId) + amount <= MAX_INT64)
    {
      hide Money.Run, Statement, Merged, ByRequestId, Hindered;
      var job := Job.Credit(userId, amount, transactionNo, bizId);
      db.Do(Start(pid, job));
      var q := Started(db.cfg, job);
      q := db.Advance(pid, q, works);
      if q.stage.Finished? { return q.stage.result; }
      q := db.Advance(pid, q, works);
      if q.stage.Finished? { return q.stage.result; }
      q := db.Advance(pid, q, works);
      if q.stage.Finished? { return q.stage.result; }
      q := db.Advance(pid, q, works);
      if q.stage.Finished? { return q.stage.result; }
      q := db.CommitTransaction(pid, q, works);
      r := q.stage.result;
    }

    /** Creates the wallet on first sight, then reads it; other calls may come in between. */
    method Balance(userId: int, works: bool) returns (balance: int, ok: bool)
      requires db.Valid()
      modifies db
      ensures db.Valid() && old(db.run) <= db.run
      ensures ok ==> userId in db.st.db.wallets && balance == db.st.db.wallets[userId] && balance >= 0
      ensures works && !ok ==> userId !in db.st.db.wallets && WalletLocked(db.st, userId)
    {
      balance, ok := 0, false;
      var broken: bool := *;
      db.Wait();
      if !works && broken { return; }
      if userId !in db.st.db.wallets {
        if WalletLocked(db.st, userId) { return; }
        db.Do(TouchWallet(userId));
      }
      ghost var before := db.run;
      broken := *;
      db.Wait();
      if !works && broken { return; }
      WalletsStay(db.cfg, before, db.run, userId);
      balance, ok := db.st.db.wallets[userId], true;
      BalanceFacts(db.cfg, db.run, db.st, userId);
    }
  }

  lemma WalletStays(cfg: Config, s: State, step: Step, u: int)
    requires Enabled(cfg, s, step) && u in s.db.wallets
    ensures u in Apply(cfg, s, step).db.wallets
  {
    hide Statement, Started, AfterRoom, AfterGate, Fails, AfterCommit;
  }

  lemma {:induction false} WalletsStay(cfg: Config, run: seq<Step>, longer: seq<Step>, u: int)
    requires run <= longer && Money.Run(cfg, longer).Some?
    ensures Money.Run(cfg, run).Some?
    ensures u in Money.Run(cfg, run).value.db.wallets ==> u in Money.Run(cfg, longer).value.db.wallets
    decreases |longer|
  {
    if run != longer {
      var before := longer[..|longer| - 1];
      assert run <= before;
      WalletsStay(cfg, run, before, u);
      if u in Money.Run(cfg, before).value.db.wallets {
        WalletStays(cfg, Money.Run(cfg, before).value, longer[|longer| - 1], u);
      }
    }
  }

  lemma BalanceFacts(cfg: Config, run: seq<Step>, s: State, u: int)
    requires Money.Run(cfg, run) == Some(s)
    ensures WalletOf(s.db.wallets, u) >= 0
  {
    RunKeepsInv(cfg, run);
  }
}
