/** What an order says about the call that wrote it, from the steps of the run alone. */
module MoneyHistory {
  import opened Basics
  import opened Events
  import opened Money

  /** Positions in a run: where a call began, learned its anchor and read its gift. */
  datatype Call = Call(start: nat, room: nat, select: nat)

  /** The process does not crash between two steps, so that it is in one and the same call. */
  predicate SameCall(run: seq<Step>, pid: Pid, from: nat, to: nat)
    requires to <= |run|
  {
    forall m :: from <= m < to ==> run[m] != Crash(pid)
  }

  /** Step `k` is the SELECT of the gift, and it found this row. */
  ghost predicate Selects(cfg: Config, run: seq<Step>, k: nat, pid: Pid, giftId: int, row: GiftRow) {
    k < |run| && run[k] == Exec(pid, true) && Run(cfg, run[..k]).Some? &&
    var s := Run(cfg, run[..k]).value;
    pid in s.procs && s.procs[pid].stage == SelectGift && giftId in s.db.gifts && s.db.gifts[giftId] == row && row.online
  }

  /** The call was begun with this request, was told this anchor and read this gift. */
  ghost predicate Made(cfg: Config, run: seq<Step>, pid: Pid, c: Call, req: Request, ids: Ids, anchor: int, row: GiftRow) {
    && c.start < c.room < c.select < |run| && SameCall(run, pid, c.start, c.select + 1)
    && run[c.start] == Start(pid, Send(req, ids)) && run[c.room] == AnswerRoom(pid, RoomLiving(anchor))
    && Selects(cfg, run, c.select, pid, req.giftId, row)
  }

  /** Every field of the order but its status, in terms of the call. */
  predicate Tells(o: Order, req: Request, ids: Ids, anchor: int, price: int) {
    && o.orderNo == ids.orderNo && o.requestId == req.requestId && o.userId == req.userId && o.anchorId == anchor
    && o.roomId == req.roomId && o.giftId == req.giftId && o.count == req.count
    && o.unitPrice == price && o.total == price * req.count
  }

  ghost predicate Told(cfg: Config, run: seq<Step>, o: Order) {
    exists pid, c, req, ids, anchor, row ::
      Made(cfg, run, pid, c, req, ids, anchor, row) && Tells(o, req, ids, anchor, row.price)
  }

  // ----- what a process has learned -----

  predicate KnowsRoom(stage: Stage) {
    stage == CheckBan || stage == CheckLimit || stage == SelectGift || KnowsGift(stage)
  }

  predicate KnowsGift(stage: Stage) {
    stage == InsertOrder || Rank(stage) >= 1 || stage == LookupDuplicate || stage == ReadBack
  }

  ghost predicate Traced(cfg: Config, run: seq<Step>, pid: Pid, p: Proc, c: Call) {
    p.job.Send? ==>
      && c.start < |run| && run[c.start] == Start(pid, p.job) && SameCall(run, pid, c.start, |run|)
      && (KnowsRoom(p.stage) ==> c.start < c.room < |run| && run[c.room] == AnswerRoom(pid, RoomLiving(p.anchor)))
      && (KnowsGift(p.stage) ==>
            c.room < c.select < |run| && Selects(cfg, run, c.select, pid, p.job.req.giftId, p.gift))
  }

  ghost predicate AllTraced(cfg: Config, run: seq<Step>, procs: map<Pid, Proc>) {
    forall pid :: pid in procs ==> exists c :: Traced(cfg, run, pid, procs[pid], c)
  }

  ghost predicate AllTold(cfg: Config, run: seq<Step>, orders: seq<Order>) {
    forall o :: o in orders ==> Told(cfg, run, o)
  }

  lemma SelectsStays(cfg: Config, run: seq<Step>, step: Step, k: nat, pid: Pid, giftId: int, row: GiftRow)
    requires Selects(cfg, run, k, pid, giftId, row)
    ensures Selects(cfg, run + [step], k, pid, giftId, row)
  {
    assert (run + [step])[..k] == run[..k];
  }

  lemma TraceStays(cfg: Config, run: seq<Step>, step: Step, pid: Pid, p: Proc, c: Call)
    requires Traced(cfg, run, pid, p, c) && step != Crash(pid)
    ensures Traced(cfg, run + [step], pid, p, c)
  {
    hide Selects;
    if p.job.Send? && KnowsGift(p.stage) { SelectsStays(cfg, run, step, c.select, pid, p.job.req.giftId, p.gift); }
  }

  lemma ToldStays(cfg: Config, run: seq<Step>, step: Step, o: Order)
    requires Told(cfg, run, o)
    ensures Told(cfg, run + [step], o)
  {
    hide Selects, Tells;
    var pid, c, req, ids, anchor, row :|
      Made(cfg, run, pid, c, req, ids, anchor, row) && Tells(o, req, ids, anchor, row.price);
    SelectsStays(cfg, run, step, c.select, pid, req.giftId, row);
    assert Made(cfg, run + [step], pid, c, req, ids, anchor, row);
  }

  /** What the process learns from its own step. */
  lemma TraceGrows(cfg: Config, run: seq<Step>, s: State, step: Step, pid: Pid, c: Call) returns (d: Call)
    requires Run(cfg, run) == Some(s) && Enabled(cfg, s, step) && pid in s.procs && Traced(cfg, run, pid, s.procs[pid], c)
    requires pid in Apply(cfg, s, step).procs
    ensures Traced(cfg, run + [step], pid, Apply(cfg, s, step).procs[pid], d)
  {
    hide Run, Selects, Statement;
    var p, q := s.procs[pid], Apply(cfg, s, step).procs[pid];
    d := c;
    TraceStays(cfg, run, step, pid, p, c);
    if step.AnswerRoom? && step.pid == pid { d := c.(room := |run|); }
    if step == Exec(pid, true) {
      StatementLearns(cfg, s.db, p);
      if q.job.Send? && q.stage == InsertOrder {
        SelectsNow(cfg, run, s, pid);
        d := c.(select := |run|);
      }
    }
  }

  /** A statement changes nothing the call has learned, except that the SELECT of the gift finds the row. */
  lemma StatementLearns(cfg: Config, db: Tables, p: Proc)
    requires IsStatement(p)
    ensures var q := Statement(cfg, db, p);
      && q.job == p.job && q.anchor == p.anchor && (KnowsRoom(q.stage) ==> KnowsRoom(p.stage) || !p.job.Send?)
      && (if q.stage == InsertOrder then p.stage == SelectGift
          else q.gift == p.gift && (KnowsGift(q.stage) ==> KnowsGift(p.stage)))
  {
  }

  lemma SelectsNow(cfg: Config, run: seq<Step>, s: State, pid: Pid)
    requires Run(cfg, run) == Some(s) && Enabled(cfg, s, Exec(pid, true)) && s.procs[pid].stage == SelectGift
    requires Statement(cfg, s.db, s.procs[pid]).stage == InsertOrder
    ensures Selects(cfg, run + [Exec(pid, true)], |run|, pid, s.procs[pid].job.req.giftId, Statement(cfg, s.db, s.procs[pid]).gift)
  {
    assert (run + [Exec(pid, true)])[..|run|] == run;
  }

  lemma StepKeepsTraces(cfg: Config, run: seq<Step>, s: State, step: Step)
    requires Run(cfg, run) == Some(s) && Enabled(cfg, s, step) && AllTraced(cfg, run, s.procs)
    ensures AllTraced(cfg, run + [step], Apply(cfg, s, step).procs)
  {
    hide Run, Traced, Apply;
    var t := Apply(cfg, s, step);
    forall pid | pid in t.procs ensures exists c :: Traced(cfg, run + [step], pid, t.procs[pid], c) {
      if pid in s.procs {
        var c :| Traced(cfg, run, pid, s.procs[pid], c);
        var d := TraceGrows(cfg, run, s, step, pid, c);
      } else {
        TraceBegins(cfg, run, s, step, pid);
      }
    }
  }

  lemma TraceBegins(cfg: Config, run: seq<Step>, s: State, step: Step, pid: Pid)
    requires Enabled(cfg, s, step) && pid !in s.procs && pid in Apply(cfg, s, step).procs
    ensures Traced(cfg, run + [step], pid, Apply(cfg, s, step).procs[pid], Call(|run|, 0, 0))
  {
    hide Statement, Selects;
  }

  /** The order of a transaction, written or committed. */
  lemma WrittenIsTold(cfg: Config, run: seq<Step>, pid: Pid, p: Proc, o: Order, c: Call)
    requires p.job.Send? && KnowsGift(p.stage) && Traced(cfg, run, pid, p, c) && (o == OrderOf(p, false) || o == OrderOf(p, true))
    ensures Made(cfg, run, pid, c, p.job.req, p.job.ids, p.anchor, p.gift) && Tells(o, p.job.req, p.job.ids, p.anchor, p.gift.price)
    ensures Told(cfg, run, o)
  {
    hide Selects;
    assert Made(cfg, run, pid, c, p.job.req, p.job.ids, p.anchor, p.gift);
  }

  lemma StepKeepsTold(cfg: Config, run: seq<Step>, s: State, step: Step)
    requires Run(cfg, run) == Some(s) && Enabled(cfg, s, step) && Inv(cfg, s)
    requires AllTraced(cfg, run, s.procs) && AllTold(cfg, run, s.db.orders)
    ensures AllTold(cfg, run + [step], Apply(cfg, s, step).db.orders)
  {
    hide Run, Told, Traced, TablesOk, NoContention, PricedOk, PrivateOk, FreshOk, ResultOk, Statement, Enabled;
    var t := Apply(cfg, s, step);
    forall o | o in t.db.orders ensures Told(cfg, run + [step], o) {
      if o !in s.db.orders {
        NewOrders(cfg, s, step, o);
        var p := s.procs[step.pid];
        assert ProcOk(cfg, s.db, p);
        var c :| Traced(cfg, run, step.pid, p, c);
        WrittenIsTold(cfg, run, step.pid, p, o, c);
      }
      ToldStays(cfg, run, step, o);
    }
  }

  /** Orders appear only by a commit. */
  lemma NewOrders(cfg: Config, s: State, step: Step, o: Order)
    requires Enabled(cfg, s, step) && o in Apply(cfg, s, step).db.orders && o !in s.db.orders
    ensures step.Commit? && step.pid in s.procs && s.procs[step.pid].stage == CommitTx && s.procs[step.pid].tx.order == Some(o)
  {
    hide Statement;
  }

  lemma {:induction false} RunTells(cfg: Config, run: seq<Step>)
    requires Run(cfg, run).Some?
    ensures AllTraced(cfg, run, Run(cfg, run).value.procs) && AllTold(cfg, run, Run(cfg, run).value.db.orders)
  {
    hide AllTraced, AllTold, Apply, Enabled;
    if run == [] {
      NothingYet(cfg);
    } else {
      var before, step := run[..|run| - 1], run[|run| - 1];
      RunTells(cfg, before);
      RunKeepsInv(cfg, before);
      StepKeepsTraces(cfg, before, Run(cfg, before).value, step);
      StepKeepsTold(cfg, before, Run(cfg, before).value, step);
      assert before + [step] == run;
    }
  }

  lemma NothingYet(cfg: Config)
    ensures AllTraced(cfg, [], Init().procs) && AllTold(cfg, [], Init().db.orders)
  {
  }

  /**
   Every committed order has, field by field, what its call was given: the request and ids it began with, the anchor
   the room lookup of that call answered, and the price its SELECT found, times the count.
   */
  lemma OrderTellsItsCall(cfg: Config, run: seq<Step>, o: Order)
    requires Run(cfg, run).Some? && o in Run(cfg, run).value.db.orders
    ensures exists pid, c, req, ids, anchor, row ::
      Made(cfg, run, pid, c, req, ids, anchor, row) && Tells(o, req, ids, anchor, row.price)
  {
    RunTells(cfg, run);
    assert Told(cfg, run, o);
  }

  /** The same for the order a call has written and not yet committed: it is that very call's. */
  lemma WriteTellsItsCall(cfg: Config, run: seq<Step>, pid: Pid)
    requires Run(cfg, run).Some? && pid in Run(cfg, run).value.procs && Run(cfg, run).value.procs[pid].tx.order.Some?
    ensures var p := Run(cfg, run).value.procs[pid];
      p.job.Send? && exists c, anchor, row ::
        Made(cfg, run, pid, c, p.job.req, p.job.ids, anchor, row) && SameCall(run, pid, c.start, |run|) &&
        Tells(p.tx.order.value, p.job.req, p.job.ids, anchor, row.price)
  {
    RunTells(cfg, run);
    RunKeepsInv(cfg, run);
    var s := Run(cfg, run).value;
    var p := s.procs[pid];
    assert ProcOk(cfg, s.db, p);
    var c :| Traced(cfg, run, pid, p, c);
    WrittenIsTold(cfg, run, pid, p, p.tx.order.value, c);
  }

  // ----- the event, the ledger row and the wallet -----

  /** Every field of the outbox event that announces an order. */
  predicate Announced(topic: string, o: Order, name: string, e: OutboxEvent) {
    && e.aggregateId == o.orderNo && e.topic == topic && e.key == Decimal(o.roomId) && e.value.Wire?
    && e.value.envelope.eventId == e.eventId && e.value.envelope.eventType == "gift.sent"
    && e.value.envelope.roomId == o.roomId && e.value.envelope.stamped && e.value.envelope.payload.OfGift?
    && var g := e.value.envelope.payload.gift;
    && g.orderNo == o.orderNo && g.userId == o.userId && g.anchorId == o.anchorId && g.giftId == o.giftId
    && g.giftName == name && g.count == o.count && g.unitPrice == o.unitPrice && g.totalAmount == o.total
  }

  /** The event of an order shows that order, and its partition key is that of the room. */
  lemma EventShowsOrder(cfg: Config, s: State, i: nat)
    requires Reachable(cfg, s) && i < |s.db.orders|
    ensures i < |s.db.events| && exists name :: Announced(cfg.topic, s.db.orders[i], name, s.db.events[i])
  {
    ReachableInv(cfg, s);
    var o, e := s.db.orders[i], s.db.events[i];
    assert Announces(cfg, o, e);
    var name :| e == EventFor(cfg, o, name, e.eventId);
    assert Announced(cfg.topic, o, name, e);
  }

  /** Events of one room share a partition key, events of different rooms do not. */
  lemma KeyIsTheRooms(cfg: Config, s: State, i: nat, j: nat)
    requires Reachable(cfg, s) && i < |s.db.orders| && j < |s.db.orders|
    ensures i < |s.db.events| && j < |s.db.events|
    ensures s.db.events[i].key == s.db.events[j].key <==> s.db.orders[i].roomId == s.db.orders[j].roomId
  {
    EventShowsOrder(cfg, s, i);
    EventShowsOrder(cfg, s, j);
    if s.db.events[i].key == s.db.events[j].key { DecimalIsInjective(s.db.orders[i].roomId, s.db.orders[j].roomId); }
  }

  /** The order has the parameters that the request asks for. */
  predicate Asked(o: Order, req: Request) {
    o.userId == req.userId && o.roomId == req.roomId && o.giftId == req.giftId && o.count == req.count
  }

  /** The ASCII codes of letters, digits, hyphen, full stop, colon and underscore. */
  predicate IdCode(n: int) {
    65 <= n <= 90 || 97 <= n <= 122 || 48 <= n <= 57 || n == 45 || n == 46 || n == 58 || n == 95
  }

  /** Request ids: 8 to 128 letters, digits, hyphens, underscores, colons and dots. */
  predicate WellFormed(id: string) {
    8 <= |id| <= 128 && forall i :: 0 <= i < |id| ==> IdCode(id[i] as int)
  }

  lemma CharIff(c: char)
    ensures RequestChar(c) <==> IdCode(c as int)
  {
  }

  lemma WellFormedIff(id: string)
    ensures WellFormed(id) <==> ValidRequestId(id)
  {
    hide RequestChar;
    forall i | 0 <= i < |id| ensures RequestChar(id[i]) <==> IdCode(id[i] as int) { CharIff(id[i]); }
  }

  /** The division guards the product: a price fits exactly when the total is in the range of the column. */
  lemma OverflowsIff(price: int, count: int)
    ensures Overflows(price, count) <==> count <= 0 || price < 0 || price * count > MAX_INT64
  {
    if count > 0 && price >= 0 {
      var q := MAX_INT64 / count;
      assert q * count <= MAX_INT64 < (q + 1) * count;
      if price <= q { MulMonotone(price, q, count); } else { MulMonotone(q + 1, price, count); }
    }
  }

  /** The charge is refused for lack of money exactly when the committed balance does not cover price times count. */
  lemma ChargeIsRefusedIff(cfg: Config, s: State, pid: Pid)
    requires Reachable(cfg, s) && Enabled(cfg, s, Exec(pid, true))
    requires s.procs[pid].stage == UpdateWallet && s.procs[pid].job.Send?
    ensures var p, q := s.procs[pid], Apply(cfg, s, Exec(pid, true)).procs[pid];
      var left := WalletOf(s.db.wallets, p.job.req.userId) - p.gift.price * p.job.req.count;
      if left < 0 then q.stage == Finished(Failed(InsufficientBalance)) && q.tx == NO_TX
      else q.stage == SelectBalance && q.tx.wallet == Some(Wallet(p.job.req.userId, left))
  {
    hide Inv, ProcOk, BalancesOk, AfterUpdateWallet, AfterSelectGift, AfterInsertOrder, AfterEnsureWallet, AfterInsertLedger,
      AfterInsertEvent, Answer, Reachable, Blocked;
    ReachableInv(cfg, s);
    assert ProcOk(cfg, s.db, s.procs[pid]) && BalancesOk(s.db.wallets, s.db.ledger) by { InvFacts(cfg, s, pid); }
    UpdateDecides(cfg, s.db, s.procs[pid]);
  }

  lemma InvFacts(cfg: Config, s: State, pid: Pid)
    requires Inv(cfg, s) && pid in s.procs
    ensures ProcOk(cfg, s.db, s.procs[pid]) && BalancesOk(s.db.wallets, s.db.ledger)
  {
  }

  lemma UpdateDecides(cfg: Config, db: Tables, p: Proc)
    requires BalancesOk(db.wallets, db.ledger) && ProcOk(cfg, db, p) && p.stage == UpdateWallet && p.job.Send?
    ensures p.tx.wallet.Some?
    ensures var q, left := AfterUpdateWallet(p), WalletOf(db.wallets, p.job.req.userId) - p.gift.price * p.job.req.count;
      if left < 0 then q.stage == Finished(Failed(InsufficientBalance)) && q.tx == NO_TX
      else q.stage == SelectBalance && q.tx.wallet == Some(Wallet(p.job.req.userId, left))
  {
    MulMonotone(0, p.gift.price, p.job.req.count);
    assert WalletOf(db.wallets, p.job.req.userId) <= MAX_INT64;
  }
}
