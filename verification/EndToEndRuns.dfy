/** The pipeline does deliver: a complete run from a credit to the message the viewers receive. */
module EndToEndRuns {
  import opened Basics
  import opened Events
  import opened EndToEnd
  import Money
  import MoneyHistory
  import MoneyRuns
  import Outbox
  import Consumer
  import ConsumerSafety

  lemma Grow(cfg: Config, run: seq<Step>, s: State, step: Step) returns (more: seq<Step>, t: State)
    requires Run(cfg, run) == Some(s) && Enabled(cfg, s, step)
    ensures t == Apply(cfg, s, step) && Run(cfg, more) == Some(t)
  {
    more, t := run + [step], Apply(cfg, s, step);
    assert more[..|run|] == run;
  }

  lemma EventsGrow(cfg: Money.Config, s: Money.State, step: Money.Step)
    requires Money.Enabled(cfg, s, step)
    ensures |s.db.events| <= |Money.Apply(cfg, s, step).db.events|
  {
    hide Money.Statement;
  }

  /** A run of the payment that has committed no event yet is a run of the whole, with everything else at its beginning. */
  lemma {:induction false} LiftMoney(cfg: Config, run: seq<Money.Step>) returns (all: seq<Step>)
    requires Money.Run(cfg.money, run).Some? && Money.Run(cfg.money, run).value.db.events == []
    ensures Run(cfg, all) == Some(Init().(money := Money.Run(cfg.money, run).value))
  {
    hide Money.Apply, Money.Enabled;
    all := [];
    if run != [] {
      var before, step := run[..|run| - 1], run[|run| - 1];
      EventsGrow(cfg.money, Money.Run(cfg.money, before).value, step);
      all := LiftMoney(cfg, before);
      var s := Init().(money := Money.Run(cfg.money, before).value);
      var t;
      all, t := Grow(cfg, all, s, MoneyStep(step, 0, 0));
    }
  }

  /** The gift that the run sells: 2 roses at 100 each, from user 7 to anchor 8 in room 9. */
  const SOLD := Gift("G1", 7, 8, 1, "Rose", 2, 100, 200)

  /** The table with the event of the sale in row 0, as the worker w left it. */
  ghost function Table(e: OutboxEvent, row: Outbox.Row, cl: seq<Outbox.ClaimRecord>, w: map<nat, Outbox.Worker>): Outbox.State {
    Outbox.Init().(rows := map[0 := row], claims := map[0 := cl], workers := w)
  }

  ghost function Offered(e: OutboxEvent): Outbox.State {
    Table(e, Outbox.Row(e, Outbox.Pending, 0, Some(0), None, None), [], map[])
  }

  ghost function Taken(e: OutboxEvent): Outbox.State {
    Table(e, Outbox.Row(e, Outbox.Claimed, 0, Some(0), Some(0), Some(0)), [Outbox.ClaimRecord(0, 0, 0, false)],
      map[0 := Outbox.Dispatching([Outbox.Open(0, 0, 0)], Outbox.Unsent)])
  }

  ghost predicate TellsSale(e: OutboxEvent) {
    e.value == Wire(Envelope("E1", "gift.sent", 9, true, OfGift(SOLD)))
  }

  /** The event of the sale waits in row 0 of the outbox; nothing else has happened. */
  ghost predicate Waits(s: State, e: OutboxEvent) {
    s.outbox == Offered(e) && s.consumer == Consumer.Init() && s.foreign == {} && TellsSale(e)
  }

  /** The record of the sale is the only one in the log. */
  ghost predicate Logged(cfg: Config, s: State, e: OutboxEvent) {
    && s.consumer == Consumer.Init().(log := map[cfg.partitionOf(e.key) := [ProducedRecord(e)]])
    && s.foreign == {} && TellsSale(e)
  }

  lemma Sell(cfg: Config) returns (run: seq<Step>, s: State, e: OutboxEvent)
    requires cfg.money.topic != "" && MoneyRuns.CountFits(cfg.money, 2)
    ensures Run(cfg, run) == Some(s) && Waits(s, e)
  {
    hide Money.Run, Run, Money.OrderOf, MoneyRuns.Charged;
    var sale, m, row := MoneyRuns.ReachCommit(cfg.money);
    run := LiftMoney(cfg, sale);
    s := Init().(money := m);
    e := CommitsSale(cfg.money, m, row);
    run, s := Grow(cfg, run, s, MoneyStep(Money.Commit(1, true, true), 0, 0));
  }

  lemma CommitsSale(cfg: Money.Config, m: Money.State, row: Money.LedgerRow) returns (e: OutboxEvent)
    requires MoneyRuns.AboutToCommit(cfg, m, row)
    ensures Money.Enabled(cfg, m, Money.Commit(1, true, true)) && m.db.events == []
    ensures Money.Apply(cfg, m, Money.Commit(1, true, true)).db.events == [e] && TellsSale(e)
  {
    e := m.procs[1].tx.event.value;
  }

  // ----- the outbox hands the event over -----

  /** A step of the outbox that delivers nothing is a step of the whole. */
  lemma OutboxMoves(cfg: Config, run: seq<Step>, s: State, o: Outbox.Step, next: Outbox.State) returns (more: seq<Step>, t: State)
    requires Run(cfg, run) == Some(s) && !o.Tick? && !o.Insert?
    requires Outbox.Enabled(cfg.outbox, s.outbox, o) && Outbox.Apply(cfg.outbox, s.outbox, o) == next && next.sent == s.outbox.sent
    ensures t == s.(outbox := next) && Run(cfg, more) == Some(t)
  {
    hide Run, Outbox.Enabled, Outbox.Apply;
    more, t := Grow(cfg, run, s, OutboxStep(o));
  }

  lemma Selects(cfg: Outbox.Config, e: OutboxEvent)
    ensures Outbox.Enabled(cfg, Offered(e), Outbox.Select(0, 0, [0]))
    ensures Outbox.Apply(cfg, Offered(e), Outbox.Select(0, 0, [0])) ==
      Offered(e).(workers := map[0 := Outbox.Claiming(0, [0], 0, map[])])
  {
    assert Outbox.Candidates(cfg, Offered(e), 0) == {0};
  }

  lemma Stamps(cfg: Outbox.Config, e: OutboxEvent)
    ensures var s := Offered(e).(workers := map[0 := Outbox.Claiming(0, [0], 0, map[])]);
      Outbox.Enabled(cfg, s, Outbox.Stamp(0)) &&
      Outbox.Apply(cfg, s, Outbox.Stamp(0)) == Offered(e).(workers := map[0 := Outbox.Claiming(0, [0], 1, map[0 := 0])])
  {
  }

  lemma Claims(cfg: Outbox.Config, e: OutboxEvent)
    ensures var s := Offered(e).(workers := map[0 := Outbox.Claiming(0, [0], 1, map[0 := 0])]);
      Outbox.Enabled(cfg, s, Outbox.CommitClaim(0, true)) && Outbox.Apply(cfg, s, Outbox.CommitClaim(0, true)) == Taken(e)
  {
    var s := Offered(e).(workers := map[0 := Outbox.Claiming(0, [0], 1, map[0 := 0])]);
    assert Outbox.CommitRows(s, 0) == Taken(e).rows;
    assert s.claims[0] + Taken(e).claims[0] == Taken(e).claims[0];
    assert Outbox.CommitClaims(s, 0) == Taken(e).claims;
    assert Outbox.Returned(s, 0) == [Outbox.Open(0, 0, 0)];
  }

  lemma Deliver(cfg: Config, run: seq<Step>, s: State, e: OutboxEvent) returns (more: seq<Step>, t: State)
    requires Run(cfg, run) == Some(s) && Waits(s, e)
    ensures Run(cfg, more) == Some(t) && Logged(cfg, t, e)
  {
    hide Run, Outbox.Enabled, Outbox.Apply, Enabled, Apply;
    Selects(cfg.outbox, e);
    more, t := OutboxMoves(cfg, run, s, Outbox.Select(0, 0, [0]), Offered(e).(workers := map[0 := Outbox.Claiming(0, [0], 0, map[])]));
    Stamps(cfg.outbox, e);
    more, t := OutboxMoves(cfg, more, t, Outbox.Stamp(0), Offered(e).(workers := map[0 := Outbox.Claiming(0, [0], 1, map[0 := 0])]));
    Claims(cfg.outbox, e);
    more, t := OutboxMoves(cfg, more, t, Outbox.CommitClaim(0, true), Taken(e));
    more, t := Hand(cfg, more, t, e);
  }

  /** Kafka acknowledges the event, and the log has its record. */
  lemma Hand(cfg: Config, run: seq<Step>, s: State, e: OutboxEvent) returns (more: seq<Step>, t: State)
    requires Run(cfg, run) == Some(s) && s.outbox == Taken(e) && s.consumer == Consumer.Init() && s.foreign == {} && TellsSale(e)
    ensures Run(cfg, more) == Some(t) && Logged(cfg, t, e)
  {
    hide Run;
    var o := Outbox.Produce(0, true, true);
    assert Outbox.HasHead(s.outbox, 0, Outbox.Unsent) && Outbox.Head(s.outbox, 0) == Outbox.Open(0, 0, 0);
    assert Outbox.Enabled(cfg.outbox, s.outbox, o);
    assert Outbox.Apply(cfg.outbox, s.outbox, o).sent == [Outbox.Copy(0, 0)];
    assert DeliveredEvent(cfg, s, o) == Some(e);
    assert Consumer.LogOf(map[], cfg.partitionOf(e.key)) + [ProducedRecord(e)] == [ProducedRecord(e)];
    assert Produced(cfg, s.consumer, e).log == map[cfg.partitionOf(e.key) := [ProducedRecord(e)]];
    more, t := Grow(cfg, run, s, OutboxStep(o));
  }

  // ----- a consumer shows it -----

  /** A step of a consumer is a step of the whole. */
  lemma ConsumerMoves(cfg: Config, run: seq<Step>, s: State, c: Consumer.Step, next: Consumer.State) returns (more: seq<Step>, t: State)
    requires Run(cfg, run) == Some(s) && !c.Tick? && !c.Append?
    requires Consumer.Enabled(cfg.consumer, s.consumer, c) && Consumer.Apply(cfg.consumer, s.consumer, c) == next
    ensures t == s.(consumer := next) && Run(cfg, more) == Some(t)
  {
    hide Run, Consumer.Enabled, Consumer.Apply;
    more, t := Grow(cfg, run, s, ConsumerStep(c));
  }

  /** The log of the one record, with what consumer 0 does. */
  function Reading(p: nat, rec: Record, work: Option<Consumer.Task>): Consumer.State {
    Consumer.Init().(log := map[p := [rec]], procs := map[0 := Consumer.Process(map[p := 0], work)])
  }

  function At(p: nat, rec: Record, stage: Consumer.Stage): Consumer.State {
    Reading(p, rec, Some(Consumer.Task(p, 0, stage)))
  }

  lemma Takes(cfg: Consumer.Config, p: nat, rec: Record)
    ensures var s := Consumer.Init().(log := map[p := [rec]]);
      Consumer.Enabled(cfg, s, Consumer.Assign(0, p)) && Consumer.Apply(cfg, s, Consumer.Assign(0, p)) == Reading(p, rec, None)
    ensures Consumer.Enabled(cfg, Reading(p, rec, None), Consumer.Fetch(0, p))
    ensures Consumer.Apply(cfg, Reading(p, rec, None), Consumer.Fetch(0, p)) == At(p, rec, Consumer.Deliver)
  {
  }

  lemma Begins(cfg: Consumer.Config, p: nat, rec: Record)
    requires Admitted(rec).Some?
    ensures Consumer.Enabled(cfg, At(p, rec, Consumer.Deliver), Consumer.BeginSelect(0))
    ensures Consumer.Apply(cfg, At(p, rec, Consumer.Deliver), Consumer.BeginSelect(0)) == At(p, rec, Consumer.Reading(None))
  {
  }

  ghost function Granted(cfg: Consumer.Config, p: nat, rec: Record): Consumer.State
    requires Admitted(rec).Some?
  {
    Consumer.Grant(At(p, rec, Consumer.Reading(None)), 0, 0, 0, true)
  }

  lemma Grants(cfg: Consumer.Config, p: nat, rec: Record)
    requires Publishable(rec)
    ensures Admitted(rec).Some?
    ensures Consumer.Enabled(cfg, At(p, rec, Consumer.Reading(None)), Consumer.BeginGrant(0, 0, 0, true))
    ensures Consumer.Apply(cfg, At(p, rec, Consumer.Reading(None)), Consumer.BeginGrant(0, 0, 0, true)) == Granted(cfg, p, rec)
    ensures Consumer.Enabled(cfg, Granted(cfg, p, rec), Consumer.Publish(0, true, true))
    ensures Consumer.Apply(cfg, Granted(cfg, p, rec), Consumer.Publish(0, true, true)).pushed == {PushOf(rec)}
  {
  }

  lemma SaleIsPublishable(e: OutboxEvent)
    requires TellsSale(e)
    ensures Publishable(ProducedRecord(e)) && PushOf(ProducedRecord(e)) == Push("E1", 9, SOLD)
  {
    assert "E1"[0] == 'E';
    ConsumerSafety.PublishableIff(ProducedRecord(e));
  }

  lemma Show(cfg: Config, run: seq<Step>, s: State, e: OutboxEvent) returns (more: seq<Step>, t: State)
    requires Run(cfg, run) == Some(s) && Logged(cfg, s, e)
    ensures Run(cfg, more) == Some(t) && t.foreign == {} && t.consumer.pushed == {Push("E1", 9, SOLD)}
  {
    hide Run, Consumer.Enabled, Consumer.Apply, Enabled, Apply;
    var p, rec := cfg.partitionOf(e.key), ProducedRecord(e);
    SaleIsPublishable(e);
    Takes(cfg.consumer, p, rec);
    more, t := ConsumerMoves(cfg, run, s, Consumer.Assign(0, p), Reading(p, rec, None));
    more, t := ConsumerMoves(cfg, more, t, Consumer.Fetch(0, p), At(p, rec, Consumer.Deliver));
    Grants(cfg.consumer, p, rec);
    Begins(cfg.consumer, p, rec);
    more, t := ConsumerMoves(cfg, more, t, Consumer.BeginSelect(0), At(p, rec, Consumer.Reading(None)));
    more, t := ConsumerMoves(cfg, more, t, Consumer.BeginGrant(0, 0, 0, true), Granted(cfg.consumer, p, rec));
    var publish := Consumer.Publish(0, true, true);
    more, t := ConsumerMoves(cfg, more, t, publish, Consumer.Apply(cfg.consumer, t.consumer, publish));
  }

  /** From a credit to the viewers: some run pays for a gift, and what the viewers receive is exactly that gift. */
  lemma GiftIsShown(cfg: Config) returns (run: seq<Step>, s: State)
    requires cfg.money.topic != "" && MoneyRuns.CountFits(cfg.money, 2)
    ensures Run(cfg, run) == Some(s) && s.foreign == {} && s.consumer.pushed == {Push("E1", 9, SOLD)}
  {
    hide Run;
    var e;
    run, s, e := Sell(cfg);
    run, s := Deliver(cfg, run, s, e);
    run, s := Show(cfg, run, s, e);
  }
}
