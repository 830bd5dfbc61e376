/** What the charge guarantees under any interleaving of statements, with failures and crashes anywhere. */
module MoneySafety {
  import opened Basics
  import opened Events
  import opened Money
  import opened MoneyHistory

  // ----- conservation -----

  function CreditsOf(ledger: seq<LedgerRow>, u: int): int {
    if ledger == [] then 0
    else CreditsOf(ledger[..|ledger| - 1], u) +
         (if ledger[|ledger| - 1].userId == u && ledger[|ledger| - 1].biz == DEV_CREDIT then ledger[|ledger| - 1].amount else 0)
  }

  function SpentOn(orders: seq<Order>, u: int): int {
    if orders == [] then 0
    else SpentOn(orders[..|orders| - 1], u) + (if orders[|orders| - 1].userId == u then orders[|orders| - 1].total else 0)
  }

  lemma {:induction false} LedgerSplits(ledger: seq<LedgerRow>, u: int)
    ensures SumLedger(ledger, u) == CreditsOf(ledger, u) + SumLedger(GiftRows(ledger), u)
  {
    if ledger != [] {
      var before, last := ledger[..|ledger| - 1], ledger[|ledger| - 1];
      LedgerSplits(before, u);
      if last.biz == GIFT { SumAppend(GiftRows(before), last, u); }
    }
  }

  lemma {:induction false} GiftRowsAreOrders(orders: seq<Order>, rows: seq<LedgerRow>, u: int)
    requires |orders| == |rows| && forall i :: 0 <= i < |orders| ==> Charges(orders[i], rows[i])
    ensures SumLedger(rows, u) == -SpentOn(orders, u)
  {
    if orders != [] {
      GiftRowsAreOrders(orders[..|orders| - 1], rows[..|rows| - 1], u);
      assert Charges(orders[|orders| - 1], rows[|rows| - 1]);
    }
  }

  /** No balance is negative, each is the sum of its ledger rows, and what was credited is kept or was spent on orders. */
  lemma MoneyConserved(cfg: Config, s: State, u: int)
    requires Reachable(cfg, s)
    ensures 0 <= WalletOf(s.db.wallets, u) == SumLedger(s.db.ledger, u)
    ensures CreditsOf(s.db.ledger, u) == WalletOf(s.db.wallets, u) + SpentOn(s.db.orders, u)
  {
    ReachableInv(cfg, s);
    assert WalletOf(s.db.wallets, u) == SumLedger(s.db.ledger, u);
    LedgerSplits(s.db.ledger, u);
    GiftRowsAreOrders(s.db.orders, GiftRows(s.db.ledger), u);
  }

  lemma {:induction false} SumSkips(ledger: seq<LedgerRow>, i: nat, j: nat, u: int)
    requires i <= j <= |ledger| && forall k :: i <= k < j ==> ledger[k].userId != u
    ensures SumLedger(ledger[..j], u) == SumLedger(ledger[..i], u)
    decreases j
  {
    if i < j {
      SumSkips(ledger, i, j - 1, u);
      assert ledger[..j][..j - 1] == ledger[..j - 1];
    }
  }

  /** Consecutive ledger rows of a user chain after to before, inside the range of the column. */
  lemma LedgerChains(cfg: Config, s: State, i: nat, j: nat)
    requires Reachable(cfg, s) && i < j < |s.db.ledger|
    requires var l := s.db.ledger; l[i].userId == l[j].userId && forall k :: i < k < j ==> l[k].userId != l[i].userId
    ensures s.db.ledger[i].after == s.db.ledger[j].before
    ensures 0 <= s.db.ledger[i].before <= MAX_INT64 && 0 <= s.db.ledger[i].after <= MAX_INT64
  {
    hide OrdersOk, TripleOk, GiftsOk, BalancesOk, NoContention, ProcOk, Run;
    ReachableInv(cfg, s);
    var l, u := s.db.ledger, s.db.ledger[i].userId;
    SumSkips(l, i + 1, j, u);
    SumAppend(l[..i], l[i], u);
    assert l[..i] + [l[i]] == l[..i + 1];
    assert l[j].before == SumLedger(l[..j], u) && l[i].before == SumLedger(l[..i], u);
  }

  // ----- the atomic triple -----

  lemma {:induction false} GiftRowsComplete(ledger: seq<LedgerRow>, row: LedgerRow)
    ensures row in GiftRows(ledger) <==> row in ledger && row.biz == GIFT
  {
    if ledger != [] {
      GiftRowsComplete(ledger[..|ledger| - 1], row);
      assert ledger == ledger[..|ledger| - 1] + [ledger[|ledger| - 1]];
    }
  }

  /**
   Committed orders, gift ledger rows and outbox events correspond one to one by order number: position i of
   each belongs to the same order, nothing is left over, and every visible order is complete and priced exactly.
   */
  lemma AtomicTriple(cfg: Config, s: State)
    requires Reachable(cfg, s)
    ensures TripleOk(cfg, s.db.orders, GiftRows(s.db.ledger), s.db.events) && OrdersOk(s.db.orders)
    ensures forall row :: row in s.db.ledger && row.biz == GIFT ==> exists i :: 0 <= i < |s.db.orders| && Charges(s.db.orders[i], row)
    ensures forall e :: e in s.db.events ==> exists i :: 0 <= i < |s.db.orders| && Announces(cfg, s.db.orders[i], e)
  {
    ReachableInv(cfg, s);
    forall row | row in s.db.ledger && row.biz == GIFT
      ensures exists i :: 0 <= i < |s.db.orders| && Charges(s.db.orders[i], row) {
      GiftRowsComplete(s.db.ledger, row);
      var i :| 0 <= i < |GiftRows(s.db.ledger)| && GiftRows(s.db.ledger)[i] == row;
      assert Charges(s.db.orders[i], row);
    }
    forall e | e in s.db.events ensures exists i :: 0 <= i < |s.db.orders| && Announces(cfg, s.db.orders[i], e) {
      var i :| 0 <= i < |s.db.events| && s.db.events[i] == e;
      assert Announces(cfg, s.db.orders[i], e);
    }
  }

  // ----- idempotency -----

  function RequestOf(s: State, pid: Pid): string
    requires pid in s.procs && s.procs[pid].job.Send?
  {
    s.procs[pid].job.req.requestId
  }

  /** The process that takes the step, if the step belongs to one. */
  predicate ActsFor(step: Step, pid: Pid) {
    match step
    case Start(p, _) => p == pid
    case AnswerRoom(p, _) => p == pid
    case AnswerGate(p, _) => p == pid
    case Exec(p, _) => p == pid
    case Commit(p, _, _) => p == pid
    case Crash(p) => p == pid
    case _ => false
  }

  /** A call with a committed request id changes no table, at whatever statement it is and however it was started. */
  lemma CommittedRequestIsInert(cfg: Config, s: State, step: Step, pid: Pid)
    requires Reachable(cfg, s) && Enabled(cfg, s, step) && ActsFor(step, pid)
    requires pid in s.procs && s.procs[pid].job.Send? && HasRequest(s.db.orders, RequestOf(s, pid))
    ensures Apply(cfg, s, step).db == s.db
  {
    ReachableInv(cfg, s);
    assert ProcOk(cfg, s.db, s.procs[pid]);
  }

  /** One request id never yields a second order, and with AtomicTriple no second charge or event. */
  lemma OneOrderPerRequest(cfg: Config, s: State, a: Order, b: Order)
    requires Reachable(cfg, s) && a in s.db.orders && b in s.db.orders && a.requestId == b.requestId
    ensures a == b
  {
    ReachableInv(cfg, s);
    SameKeySameOrder(s.db.orders, a, b);
  }

  /** A successful call names the one committed order of its request, with the parameters it asked for. */
  lemma SuccessIsTheOrder(cfg: Config, s: State, pid: Pid)
    requires Reachable(cfg, s) && pid in s.procs && s.procs[pid].stage.Finished? && s.procs[pid].stage.result.Sent?
    ensures var p := s.procs[pid];
      && p.job.Send? && ByRequestId(s.db.orders, p.job.req.requestId) == Some(p.stage.result.order)
      && Asked(p.stage.result.order, p.job.req) && p.stage.result.order.success
  {
    ReachableInv(cfg, s);
    var p := s.procs[pid];
    assert ProcOk(cfg, s.db, p);
    var o := p.stage.result.order;
    var i :| 0 <= i < |s.db.orders| && s.db.orders[i] == o;
    FindRequest(s.db.orders, p.job.req.requestId);
    SameKeySameOrder(s.db.orders, ByRequestId(s.db.orders, p.job.req.requestId).value, o);
    assert OrderOk(s.db.orders[i]);
  }

  /**
   What a lookup by request id may answer on these tables: the committed order of the request exactly when it has the
   same parameters, else the conflict; the refusal if no order has the id.
   */
  ghost predicate Replies(orders: seq<Order>, req: Request, refusal: Failure, r: Result) {
    && (forall o :: o in orders && o.requestId == req.requestId ==>
          r == if Asked(o, req) then Sent(o, true) else Failed(IdempotencyConflict))
    && (!HasRequest(orders, req.requestId) ==> r == Failed(refusal))
  }

  lemma LookupReplies(orders: seq<Order>, p: Proc, refusal: Failure)
    requires OrdersOk(orders) && p.job.Send?
    ensures var q := Answer(p, ByRequestId(orders, p.job.req.requestId), refusal);
      q.stage.Finished? && Replies(orders, p.job.req, refusal, q.stage.result)
  {
    hide OrdersOk, ByRequestId;
    var rid := p.job.req.requestId;
    FindRequest(orders, rid);
    forall o | o in orders && o.requestId == rid ensures ByRequestId(orders, rid) == Some(o) {
      var i :| 0 <= i < |orders| && orders[i] == o;
      assert HasRequest(orders, rid);
      SameKeySameOrder(orders, ByRequestId(orders, rid).value, o);
    }
  }

  predicate Refuses(s: State, step: Step, refusal: Failure) {
    match step
    case AnswerRoom(_, RoomError) => refusal == RoomLookupFailed
    case AnswerRoom(_, RoomClosed) => refusal == NotLiving
    case AnswerGate(pid, Refuse) => pid in s.procs && refusal == (if s.procs[pid].stage == CheckBan then Banned else RateLimited)
    case _ => false
  }

  /** A closed room, a failed room lookup, a ban or the rate limit still answer with the original order. */
  lemma RefusalStillReplays(cfg: Config, s: State, step: Step, pid: Pid, refusal: Failure, later: State)
    requires Enabled(cfg, s, step) && ActsFor(step, pid) && Refuses(s, step, refusal) && s.procs[pid].job.Send?
    requires pid in later.procs && later.procs[pid] == Apply(cfg, s, step).procs[pid]
    requires Reachable(cfg, later) && Enabled(cfg, later, Exec(pid, true))
    ensures var t := Apply(cfg, later, Exec(pid, true));
      && t.db == later.db && t.procs[pid].stage.Finished?
      && Replies(later.db.orders, s.procs[pid].job.req, refusal, t.procs[pid].stage.result)
  {
    hide Replies, ByRequestId, Answer, TripleOk, BalancesOk, LedgerOk, GiftsOk, NoContention, ProcOk, OrdersOk;
    ReachableInv(cfg, later);
    LookupReplies(later.db.orders, later.procs[pid], refusal);
  }

  /** The gift is still sold at a price that fits. */
  predicate Sellable(db: Tables, req: Request) {
    && req.giftId in db.gifts && db.gifts[req.giftId].online
    && req.count > 0 && 0 <= db.gifts[req.giftId].price && db.gifts[req.giftId].price * req.count <= MAX_INT64
  }

  /**
   A call past the gates whose request id is committed when it inserts its order, left alone by failures: it answers
   with the original order or the conflict exactly when its SELECT found the gift still sold at a price that fits
   and its INSERT found the drawn order number unused. The three statements see the tables of their own moments.
   */
  lemma CreateReplaysIff(cfg: Config, selecting: Tables, inserting: Tables, looking: Tables, p: Proc)
    requires p.job.Send? && p.stage == SelectGift && p.tx == NO_TX && HasRequest(inserting.orders, p.job.req.requestId)
    requires OrdersOk(looking.orders)
    ensures var selected := Statement(cfg, selecting, p);
      if !IsStatement(selected) then
        && !Sellable(selecting, p.job.req)
        && selected.stage == Finished(Failed(
             if p.job.req.giftId !in selecting.gifts then GiftNotFound
             else if !selecting.gifts[p.job.req.giftId].online then GiftOffline else AmountOverflow))
      else
        var inserted := Statement(cfg, inserting, selected);
        && Sellable(selecting, p.job.req)
        && if !IsStatement(inserted) then
             HasOrderNo(inserting.orders, p.job.ids.orderNo) && inserted.stage == Finished(Failed(CallFailed))
           else
             && !HasOrderNo(inserting.orders, p.job.ids.orderNo)
             && var answered := Statement(cfg, looking, inserted).stage;
             answered.Finished? && Replies(looking.orders, p.job.req, OrderNotFound, answered.result)
  {
    hide Replies, ByRequestId, Answer, OrdersOk;
    var selected, id := Statement(cfg, selecting, p), p.job.req.giftId;
    OverflowsIff(if id in selecting.gifts then selecting.gifts[id].price else 0, p.job.req.count);
    if IsStatement(selected) { LookupReplies(looking.orders, Statement(cfg, inserting, selected), OrderNotFound); }
  }

  // ----- errors that hide a charge -----

  /** The step that ends this call with an error, once its order row is written or committed. */
  ghost predicate EndsInError(cfg: Config, s: State, step: Step, pid: Pid)
    requires Enabled(cfg, s, step)
  {
    && ActsFor(step, pid) && pid in s.procs && s.procs[pid].job.Send?
    && (s.procs[pid].tx.order.Some? || s.procs[pid].stage == ReadBack)
    && pid in Apply(cfg, s, step).procs
    && Apply(cfg, s, step).procs[pid].stage.Finished? && Apply(cfg, s, step).procs[pid].stage.result.Failed?
  }

  /** An error hides a charge exactly when it came from the read after COMMIT or from a COMMIT whose reply was lost. */
  lemma ErrorHidesChargeIff(cfg: Config, s: State, step: Step, pid: Pid)
    requires Reachable(cfg, s) && Enabled(cfg, s, step) && EndsInError(cfg, s, step, pid)
    ensures HasOrderNo(Apply(cfg, s, step).db.orders, s.procs[pid].job.ids.orderNo) <==>
      s.procs[pid].stage == ReadBack || step == Commit(pid, false, true)
  {
    ReachableInv(cfg, s);
    var p, t := s.procs[pid], Apply(cfg, s, step);
    assert ProcOk(cfg, s.db, p);
    if p.stage == ReadBack {
      var i :| 0 <= i < |s.db.orders| && s.db.orders[i] == OrderOf(p, true);
      assert t.db.orders == s.db.orders && t.db.orders[i].orderNo == p.job.ids.orderNo;
    } else if step == Commit(pid, false, true) {
      assert t.db.orders == s.db.orders + [OrderOf(p, true)] && t.db.orders[|s.db.orders|].orderNo == p.job.ids.orderNo;
    } else {
      assert t.db.orders == s.db.orders && !HasOrderNo(s.db.orders, p.job.ids.orderNo);
    }
  }

  /** The hidden order is complete, and a retry of the request finds it. */
  lemma ErrorMayHideCharge(cfg: Config, s: State, step: Step, pid: Pid)
    requires Reachable(cfg, s) && pid in s.procs && s.procs[pid].job.Send?
    requires (s.procs[pid].stage == ReadBack && step == Exec(pid, false)) ||
             (s.procs[pid].stage == CommitTx && step == Commit(pid, false, true))
    ensures var t := Apply(cfg, s, step);
      && t.procs[pid].stage == Finished(Failed(CallFailed))
      && Replies(t.db.orders, s.procs[pid].job.req, CallFailed, Sent(OrderOf(s.procs[pid], true), true))
  {
    hide BalancesOk, LedgerOk, TripleOk, GiftsOk, NoContention, Statement, PricedOk, PrivateOk;
    var p, t := s.procs[pid], Apply(cfg, s, step);
    ReachableInv(cfg, s);
    assert ProcOk(cfg, s.db, p);
    ReachableStep(cfg, s, step);
    ReachableInv(cfg, t);
    assert OrderOf(p, true) in t.db.orders by {
      if p.stage == CommitTx { assert t.db.orders == s.db.orders + [OrderOf(p, true)]; }
    }
    var i :| 0 <= i < |t.db.orders| && t.db.orders[i] == OrderOf(p, true);
    forall o | o in t.db.orders && o.requestId == p.job.req.requestId ensures o == OrderOf(p, true) {
      SameKeySameOrder(t.db.orders, o, OrderOf(p, true));
    }
  }
}
