/** Complete runs of the payment: an undisturbed charge commits, and the surprising answers do occur. */
module MoneyRuns {
  import opened Basics
  import opened Events
  import opened Money
  import opened MoneyHistory
  import opened MoneySafety

  lemma Grow(cfg: Config, run: seq<Step>, s: State, step: Step) returns (more: seq<Step>, t: State)
    requires Run(cfg, run) == Some(s) && Enabled(cfg, s, step)
    ensures t == Apply(cfg, s, step) && Run(cfg, more) == Some(t) && more == run + [step]
  {
    more, t := run + [step], Apply(cfg, s, step);
    assert more[..|run|] == run;
  }

  /** Every other process has finished or holds nothing. */
  predicate Quiet(procs: map<Pid, Proc>, pid: Pid) {
    forall q :: q in procs && q != pid ==> procs[q].tx == NO_TX
  }

  /** The process is alone at its next statement. */
  ghost predicate Alone(cfg: Config, run: seq<Step>, s: State, pid: Pid, p: Proc) {
    Run(cfg, run) == Some(s) && pid in s.procs && s.procs[pid] == p && Quiet(s.procs, pid)
  }

  lemma NextStatement(cfg: Config, run: seq<Step>, s: State, pid: Pid, p: Proc) returns (more: seq<Step>, t: State)
    requires Alone(cfg, run, s, pid, p) && IsStatement(p)
    ensures Alone(cfg, more, t, pid, Statement(cfg, s.db, p)) && t == With(s, pid, Statement(cfg, s.db, p))
  {
    hide Run, Statement;
    assert !Blocked(s, pid, Statement(cfg, s.db, p).tx);
    more, t := Grow(cfg, run, s, Exec(pid, true));
  }

  /** The count is positive and within the configured limit, or within 100 if none is configured. */
  predicate CountFits(cfg: Config, count: int) {
    1 <= count <= if cfg.maxCount > 0 then cfg.maxCount else 100
  }

  /** What an undisturbed Send needs in order to charge. */
  predicate Chargeable(cfg: Config, db: Tables, req: Request, ids: Ids) {
    && CountFits(cfg, req.count) && WellFormed(req.requestId) && cfg.topic != ""
    && Sellable(db, req) && db.gifts[req.giftId].price * req.count <= WalletOf(db.wallets, req.userId) <= MAX_INT64
    && !HasRequest(db.orders, req.requestId) && !HasOrderNo(db.orders, ids.orderNo)
    && !HasTransaction(db.ledger, ids.transactionNo) && ids.eventId != "" && !HasEvent(db.events, ids.eventId)
  }

  /** The local variables of a Send that has passed the gates. */
  function Passed(req: Request, ids: Ids, anchor: int): Proc {
    Proc(Send(req, ids), SelectGift, anchor, GiftRow("", 0, false), 0, NO_TX)
  }

  lemma PassGates(cfg: Config, run: seq<Step>, s: State, pid: Pid, req: Request, ids: Ids, anchor: int)
    returns (more: seq<Step>, t: State)
    requires Run(cfg, run) == Some(s) && pid !in s.procs && Quiet(s.procs, pid)
    requires CountFits(cfg, req.count) && WellFormed(req.requestId)
    ensures Alone(cfg, more, t, pid, Passed(req, ids, anchor)) && t == With(s, pid, Passed(req, ids, anchor))
  {
    hide Run, ValidRequestId, WellFormed;
    WellFormedIff(req.requestId);
    var p := Passed(req, ids, anchor);
    more, t := Grow(cfg, run, s, Start(pid, Send(req, ids)));
    assert t == With(s, pid, p.(stage := GetRoom, anchor := 0));
    more, t := Grow(cfg, more, t, AnswerRoom(pid, RoomLiving(anchor)));
    assert t == With(s, pid, p.(stage := CheckBan));
    more, t := Grow(cfg, more, t, AnswerGate(pid, Pass));
    assert t == With(s, pid, p.(stage := CheckLimit));
    more, t := Grow(cfg, more, t, AnswerGate(pid, Pass));
  }

  /** The process at COMMIT with everything written. */
  function Charged(cfg: Config, db: Tables, req: Request, ids: Ids, anchor: int): Proc
    requires req.giftId in db.gifts
  {
    var g := db.gifts[req.giftId];
    var left := WalletOf(db.wallets, req.userId) - g.price * req.count;
    var p := Proc(Send(req, ids), CommitTx, anchor, g, left, NO_TX);
    p.(tx := Tx(Some(OrderOf(p, true)), Some(Wallet(req.userId, left)), Some(LedgerOf(p)),
                Some(EventFor(cfg, OrderOf(p, true), g.name, ids.eventId))))
  }

  lemma InsertTheOrder(cfg: Config, run: seq<Step>, s: State, pid: Pid, req: Request, ids: Ids, anchor: int)
    returns (more: seq<Step>, t: State, p: Proc)
    requires Alone(cfg, run, s, pid, Passed(req, ids, anchor)) && Chargeable(cfg, s.db, req, ids)
    ensures Alone(cfg, more, t, pid, p) && t == With(s, pid, p)
    ensures p.stage == EnsureWallet && p.gift == s.db.gifts[req.giftId] && p.job == Send(req, ids) && p.anchor == anchor
    ensures p.tx == NO_TX.(order := Some(OrderOf(p, false)))
  {
    hide Alone, Run;
    OverflowsIff(s.db.gifts[req.giftId].price, req.count);
    more, t := NextStatement(cfg, run, s, pid, Passed(req, ids, anchor));
    p := Statement(cfg, s.db, Passed(req, ids, anchor));
    more, t := NextStatement(cfg, more, t, pid, p);
    p := Statement(cfg, s.db, p);
  }

  lemma PayTheOrder(cfg: Config, run: seq<Step>, s: State, pid: Pid, p0: Proc)
    returns (more: seq<Step>, t: State, p: Proc)
    requires Alone(cfg, run, s, pid, p0) && p0.stage == EnsureWallet
    requires 0 <= WalletOf(s.db.wallets, UserOf(p0.job)) + DeltaOf(p0) <= MAX_INT64
    ensures Alone(cfg, more, t, pid, p) && t == With(s, pid, p)
    ensures var left := WalletOf(s.db.wallets, UserOf(p0.job)) + DeltaOf(p0);
      p == p0.(stage := InsertLedger, after := left, tx := p0.tx.(wallet := Some(Wallet(UserOf(p0.job), left))))
  {
    hide Alone, Run;
    more, t := NextStatement(cfg, run, s, pid, p0);
    p := Statement(cfg, s.db, p0);
    more, t := NextStatement(cfg, more, t, pid, p);
    p := Statement(cfg, s.db, p);
    more, t := NextStatement(cfg, more, t, pid, p);
    p := Statement(cfg, s.db, p);
  }

  lemma RecordTheOrder(cfg: Config, run: seq<Step>, s: State, pid: Pid, p0: Proc)
    returns (more: seq<Step>, t: State, p: Proc)
    requires Alone(cfg, run, s, pid, p0) && p0.stage == InsertLedger && p0.job.Send?
    requires p0.tx.order == Some(OrderOf(p0, false)) && cfg.topic != "" && p0.job.ids.eventId != ""
    requires !HasTransaction(s.db.ledger, p0.job.ids.transactionNo) && !HasEvent(s.db.events, p0.job.ids.eventId)
    ensures Alone(cfg, more, t, pid, p) && t == With(s, pid, p)
    ensures p == p0.(stage := CommitTx, tx := p0.tx.(
      order := Some(OrderOf(p0, true)), ledger := Some(LedgerOf(p0)),
      event := Some(EventFor(cfg, OrderOf(p0, true), p0.gift.name, p0.job.ids.eventId))))
  {
    hide Alone, Run;
    more, t := NextStatement(cfg, run, s, pid, p0);
    p := Statement(cfg, s.db, p0);
    more, t := NextStatement(cfg, more, t, pid, p);
    p := Statement(cfg, s.db, p);
    more, t := NextStatement(cfg, more, t, pid, p);
    p := Statement(cfg, s.db, p);
  }

  /** What a Send has written when it stands at its COMMIT, field by field. */
  predicate Wrote(cfg: Config, db: Tables, req: Request, ids: Ids, anchor: int, p: Proc)
    requires req.giftId in db.gifts
  {
    var g := db.gifts[req.giftId];
    var total, had := g.price * req.count, WalletOf(db.wallets, req.userId);
    && p.job == Send(req, ids) && p.stage == CommitTx && p.tx.order.Some? && p.tx.event.Some?
    && Tells(p.tx.order.value, req, ids, anchor, g.price) && p.tx.order.value.success
    && p.tx.wallet == Some(Wallet(req.userId, had - total))
    && p.tx.ledger == Some(LedgerRow(ids.transactionNo, req.userId, GIFT, ids.orderNo, -total, had, had - total))
    && p.tx.event.value.eventId == ids.eventId && Announced(cfg.topic, p.tx.order.value, g.name, p.tx.event.value)
  }

  lemma ChargedIsWritten(cfg: Config, db: Tables, req: Request, ids: Ids, anchor: int)
    requires req.giftId in db.gifts
    ensures Wrote(cfg, db, req, ids, anchor, Charged(cfg, db, req, ids, anchor))
  {
  }

  /** A Send that nothing disturbs reaches its COMMIT with order, charge, ledger row and event written. */
  lemma SendReachesCommit(cfg: Config, run: seq<Step>, s: State, pid: Pid, req: Request, ids: Ids, anchor: int)
    returns (more: seq<Step>, t: State)
    requires Run(cfg, run) == Some(s) && pid !in s.procs && Quiet(s.procs, pid) && Chargeable(cfg, s.db, req, ids)
    ensures Alone(cfg, more, t, pid, Charged(cfg, s.db, req, ids, anchor))
    ensures t == With(s, pid, Charged(cfg, s.db, req, ids, anchor))
    ensures t.db == s.db && Wrote(cfg, s.db, req, ids, anchor, t.procs[pid])
  {
    hide Alone, Run, Statement, WellFormed, EventFor;
    var p;
    more, t := PassGates(cfg, run, s, pid, req, ids, anchor);
    more, t, p := InsertTheOrder(cfg, more, t, pid, req, ids, anchor);
    more, t, p := PayTheOrder(cfg, more, t, pid, p);
    more, t, p := RecordTheOrder(cfg, more, t, pid, p);
    ChargedIsWritten(cfg, s.db, req, ids, anchor);
  }

  /** What a successful Send changes in the tables, and its answer. */
  ghost predicate Succeeded(cfg: Config, s: Tables, req: Request, ids: Ids, anchor: int, t: Tables, stage: Stage)
    requires req.giftId in s.gifts
  {
    var g := s.gifts[req.giftId];
    var total, had := g.price * req.count, WalletOf(s.wallets, req.userId);
    && stage.Finished? && stage.result.Sent? && !stage.result.replay
    && var o := stage.result.order;
    && Tells(o, req, ids, anchor, g.price) && o.success
    && t.gifts == s.gifts && t.orders == s.orders + [o] && t.wallets == s.wallets[req.userId := had - total]
    && t.ledger == s.ledger + [LedgerRow(ids.transactionNo, req.userId, GIFT, ids.orderNo, -total, had, had - total)]
    && |t.events| == |s.events| + 1 && t.events[..|s.events|] == s.events
    && t.events[|s.events|].eventId == ids.eventId && Announced(cfg.topic, o, g.name, t.events[|s.events|])
  }

  /** From any reachable state without other open transactions, a Send that is chargeable can succeed, and does this. */
  lemma SendSucceeds(cfg: Config, run: seq<Step>, s: State, pid: Pid, req: Request, ids: Ids, anchor: int)
    returns (more: seq<Step>, t: State)
    requires Run(cfg, run) == Some(s) && pid !in s.procs && Quiet(s.procs, pid) && Chargeable(cfg, s.db, req, ids)
    ensures Run(cfg, more) == Some(t) && pid in t.procs && t.procs[pid].job == Send(req, ids)
    ensures Succeeded(cfg, s.db, req, ids, anchor, t.db, t.procs[pid].stage)
  {
    hide Run, Chargeable, OrderOf, Charged, Announced, WalletOf, Sellable, Statement;
    assert req.giftId in s.db.gifts by { ChargeableIsSold(cfg, s.db, req, ids); }
    more, t := SendReachesCommit(cfg, run, s, pid, req, ids, anchor);
    var p := t.procs[pid];
    more, t := Grow(cfg, more, t, Commit(pid, true, true));
    assert t.db == Merged(s.db, p.tx) && t.procs[pid].stage == ReadBack;
    assert t.db.events[..|s.db.events|] == s.db.events;
    ReadTheOrder(cfg, more, t, pid, p.tx.order.value);
    more, t := Grow(cfg, more, t, Exec(pid, true));
    assert t.procs[pid].stage == Finished(Sent(p.tx.order.value, false)) && t.db == Merged(s.db, p.tx);
  }

  lemma ChargeableIsSold(cfg: Config, db: Tables, req: Request, ids: Ids)
    requires Chargeable(cfg, db, req, ids)
    ensures req.giftId in db.gifts
  {
  }

  /** The read after COMMIT finds the order just committed. */
  lemma ReadTheOrder(cfg: Config, run: seq<Step>, s: State, pid: Pid, o: Order)
    requires Run(cfg, run) == Some(s) && pid in s.procs && s.procs[pid].stage == ReadBack && s.procs[pid].job.Send?
    requires o in s.db.orders && o.orderNo == s.procs[pid].job.ids.orderNo
    ensures Enabled(cfg, s, Exec(pid, true)) && Statement(cfg, s.db, s.procs[pid]).stage == Finished(Sent(o, false))
    ensures Statement(cfg, s.db, s.procs[pid]).job == s.procs[pid].job
  {
    hide Run, TablesOk, NoContention, OrdersOk, PricedOk, PrivateOk, FreshOk, TxShape, ByOrderNo, AfterSelectGift,
      AfterInsertOrder, AfterEnsureWallet, AfterUpdateWallet, AfterInsertLedger, AfterInsertEvent, Answer;
    RunKeepsInv(cfg, run);
    var p := s.procs[pid];
    InvFacts(cfg, s, pid);
    OrdersAreOk(cfg, s);
    ReadBackOk(cfg, s.db, p);
    SameKeySameOrder(s.db.orders, o, OrderOf(p, true));
  }

  lemma OrdersAreOk(cfg: Config, s: State)
    requires Inv(cfg, s)
    ensures OrdersOk(s.db.orders)
  {
  }

  // ----- the runs -----

  const ROSE := GiftRow("Rose", 100, true)
  const REQUEST := Request("req-0001", 7, 9, 1, 2)
  const FIRST := Ids("G1", "WT1", "E1")
  const SECOND := Ids("G2", "WT2", "E2")

  /** A gift is on sale, and user 7 has been credited with 500. */
  ghost predicate Shop(s: State, row: LedgerRow) {
    && s.db == Tables(map[1 := ROSE], map[7 := 500], [], [row], []) && row.transactionNo == "WT0"
    && s.procs.Keys == {0} && s.procs[0].tx == NO_TX
  }

  lemma OpenShop(cfg: Config) returns (run: seq<Step>, s: State, row: LedgerRow)
    ensures Run(cfg, run) == Some(s) && Shop(s, row)
  {
    hide Run, Statement;
    run, s := [], Init();
    assert Run(cfg, []) == Some(Init()) by { NoSteps(cfg); }
    run, s := Grow(cfg, run, s, SetGift(1, ROSE));
    run, s := Grow(cfg, run, s, Start(0, Credit(7, 500, "WT0", "B0")));
    var p := s.procs[0];
    run, s, p := PayTheOrder(cfg, run, s, 0, p);
    run, s, row := FinishCredit(cfg, run, s, p);
  }

  lemma NoSteps(cfg: Config)
    ensures Run(cfg, []) == Some(Init())
  {
  }

  lemma FinishCredit(cfg: Config, run: seq<Step>, s: State, p: Proc) returns (more: seq<Step>, t: State, row: LedgerRow)
    requires Alone(cfg, run, s, 0, p) && s.procs.Keys == {0} && s.db == Tables(map[1 := ROSE], map[], [], [], [])
    requires p.stage == InsertLedger && p.job == Credit(7, 500, "WT0", "B0")
    requires p.tx == NO_TX.(wallet := Some(Wallet(7, 500)))
    ensures Run(cfg, more) == Some(t) && Shop(t, row)
  {
    hide Run;
    more, t := NextStatement(cfg, run, s, 0, p);
    row := LedgerOf(p);
    assert Statement(cfg, s.db, p) == p.(stage := CommitTx, tx := p.tx.(ledger := Some(row)));
    more, t := Grow(cfg, more, t, Commit(0, true, true));
  }

  /** The first Send of the request, for 200, is about to commit. */
  ghost predicate AboutToCommit(cfg: Config, s: State, row: LedgerRow) {
    && s.db == Tables(map[1 := ROSE], map[7 := 500], [], [row], [])
    && s.procs.Keys == {0, 1} && s.procs[0].tx == NO_TX && s.procs[1] == Charged(cfg, s.db, REQUEST, FIRST, 8)
  }

  lemma ReachCommit(cfg: Config) returns (run: seq<Step>, s: State, row: LedgerRow)
    requires cfg.topic != "" && CountFits(cfg, 2)
    ensures Run(cfg, run) == Some(s) && AboutToCommit(cfg, s, row)
  {
    hide Run, Charged;
    run, s, row := OpenShop(cfg);
    assert WellFormed(REQUEST.requestId);
    assert Chargeable(cfg, s.db, REQUEST, FIRST);
    run, s := SendReachesCommit(cfg, run, s, 1, REQUEST, FIRST, 8);
  }

  /** The charge of the first Send stands. */
  ghost predicate Paid(db: Tables) {
    && db.wallets == map[7 := 300] && |db.orders| == 1 && db.orders[0].success && Tells(db.orders[0], REQUEST, FIRST, 8, 100)
    && ByRequestId(db.orders, REQUEST.requestId) == Some(db.orders[0]) && Asked(db.orders[0], REQUEST)
  }

  lemma CommitPays(cfg: Config, run: seq<Step>, s: State, row: LedgerRow, acked: bool) returns (more: seq<Step>, t: State)
    requires Run(cfg, run) == Some(s) && AboutToCommit(cfg, s, row)
    ensures Run(cfg, more) == Some(t) && Paid(t.db) && t.procs.Keys == {0, 1} && t.procs[0].tx == t.procs[1].tx == NO_TX
    ensures t.procs[1].job == Send(REQUEST, FIRST) && t.db.gifts == map[1 := ROSE]
    ensures t.procs[1].stage == if acked then ReadBack else Finished(Failed(CallFailed))
    ensures more == run + [Commit(1, acked, true)]
  {
    hide Run;
    more, t := Grow(cfg, run, s, Commit(1, acked, true));
    assert t.db.orders == [OrderOf(s.procs[1], true)];
  }

  /** Both ways in which an error hides a charge occur: the reply of COMMIT is lost, or the read after it fails. */
  lemma HiddenChargesOccur(cfg: Config, lostReply: bool) returns (run: seq<Step>, s: State)
    requires cfg.topic != "" && CountFits(cfg, 2)
    ensures Run(cfg, run) == Some(s) && Paid(s.db)
    ensures 1 in s.procs && s.procs[1].job == Send(REQUEST, FIRST) && s.procs[1].stage == Finished(Failed(CallFailed))
    ensures run != [] && run[|run| - 1] == if lostReply then Commit(1, false, true) else Exec(1, false)
  {
    hide Run;
    var row;
    run, s, row := ReachCommit(cfg);
    run, s := CommitPays(cfg, run, s, row, !lostReply);
    if !lostReply { run, s := Grow(cfg, run, s, Exec(1, false)); }
  }

  /** A paid request is refused its replay: the gift has been taken offline in between. */
  lemma ReplayCanBeRefused(cfg: Config) returns (run: seq<Step>, s: State)
    requires cfg.topic != "" && CountFits(cfg, 2)
    ensures Run(cfg, run) == Some(s) && Paid(s.db)
    ensures 2 in s.procs && s.procs[2].job == Send(REQUEST, SECOND) && s.procs[2].stage == Finished(Failed(GiftOffline))
  {
    hide Run;
    var row;
    run, s, row := ReachCommit(cfg);
    run, s := CommitPays(cfg, run, s, row, true);
    run, s := Grow(cfg, run, s, SetGift(1, ROSE.(online := false)));
    assert WellFormed(REQUEST.requestId);
    run, s := PassGates(cfg, run, s, 2, REQUEST, SECOND, 8);
    run, s := NextStatement(cfg, run, s, 2, Passed(REQUEST, SECOND, 8));
  }
}
