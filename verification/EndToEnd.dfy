/**
 The gift pipeline as a whole: the commerce database, the outbox workers, the Kafka log and the consumers.

 A money step that commits an order inserts its outbox row in the same transaction; an outbox step that delivers
 a copy appends a record to the log. Records from elsewhere (replays, other producers) may be appended too.
 */
module EndToEnd {
  import opened Basics
  import opened Events
  import Money
  import MoneySafety
  import Outbox
  import OutboxSafety
  import Consumer
  import ConsumerSafety

  datatype Config = Config(money: Money.Config, outbox: Outbox.Config, consumer: Consumer.Config, partitionOf: string -> nat)

  datatype State = State(money: Money.State, outbox: Outbox.State, consumer: Consumer.State, foreign: set<Record>)

  datatype Step =
    | Tick(elapsed: nat)
    | MoneyStep(money: Money.Step, id: Outbox.RowId, at: Time)
    | OutboxStep(outbox: Outbox.Step)
    | ConsumerStep(consumer: Consumer.Step)
    | ForeignRecord(p: Consumer.Part, rec: Record)

  ghost function Init(): State {
    State(Money.Init(), Outbox.Init(), Consumer.Init(), {})
  }

  predicate CommitsEvent(cfg: Config, s: State, m: Money.Step)
    requires Money.Enabled(cfg.money, s.money, m)
  {
    |Money.Apply(cfg.money, s.money, m).db.events| > |s.money.db.events|
  }

  /** The row the committing transaction inserted. */
  ghost function InsertOf(cfg: Config, s: State, m: Money.Step, id: Outbox.RowId, at: Time): Outbox.Step
    requires Money.Enabled(cfg.money, s.money, m) && CommitsEvent(cfg, s, m)
  {
    var events := Money.Apply(cfg.money, s.money, m).db.events;
    Outbox.Insert(id, events[|events| - 1], at)
  }

  ghost predicate Delivers(cfg: Config, s: State, o: Outbox.Step)
    requires Outbox.Enabled(cfg.outbox, s.outbox, o)
  {
    |Outbox.Apply(cfg.outbox, s.outbox, o).sent| > |s.outbox.sent|
  }

  ghost function DeliveredEvent(cfg: Config, s: State, o: Outbox.Step): Option<OutboxEvent>
    requires Outbox.Enabled(cfg.outbox, s.outbox, o) && Delivers(cfg, s, o)
  {
    var sent := Outbox.Apply(cfg.outbox, s.outbox, o).sent;
    var id := sent[|sent| - 1].id;
    if id in s.outbox.rows then Some(s.outbox.rows[id].event) else None
  }

  ghost predicate Enabled(cfg: Config, s: State, step: Step) {
    match step
    case Tick(_) => true
    case MoneyStep(m, id, at) =>
      Money.Enabled(cfg.money, s.money, m) &&
      (CommitsEvent(cfg, s, m) ==> Outbox.Enabled(cfg.outbox, s.outbox, InsertOf(cfg, s, m, id, at)))
    case OutboxStep(o) => !o.Tick? && !o.Insert? && Outbox.Enabled(cfg.outbox, s.outbox, o) &&
      (Delivers(cfg, s, o) ==> DeliveredEvent(cfg, s, o).Some?)
    case ConsumerStep(c) => !c.Tick? && !c.Append? && Consumer.Enabled(cfg.consumer, s.consumer, c)
    case ForeignRecord(_, _) => true
  }

  ghost function Apply(cfg: Config, s: State, step: Step): State
    requires Enabled(cfg, s, step)
  {
    match step
    case Tick(d) => s.(
      outbox := Outbox.Apply(cfg.outbox, s.outbox, Outbox.Tick(d)),
      consumer := Consumer.Apply(cfg.consumer, s.consumer, Consumer.Tick(d)))
    case MoneyStep(m, id, at) => s.(
      money := Money.Apply(cfg.money, s.money, m),
      outbox := if CommitsEvent(cfg, s, m) then Outbox.Apply(cfg.outbox, s.outbox, InsertOf(cfg, s, m, id, at)) else s.outbox)
    case OutboxStep(o) => s.(
      outbox := Outbox.Apply(cfg.outbox, s.outbox, o),
      consumer := if Delivers(cfg, s, o) then Produced(cfg, s.consumer, DeliveredEvent(cfg, s, o).value) else s.consumer)
    case ConsumerStep(c) => s.(consumer := Consumer.Apply(cfg.consumer, s.consumer, c))
    case ForeignRecord(p, rec) => s.(
      consumer := Consumer.Apply(cfg.consumer, s.consumer, Consumer.Append(p, rec)), foreign := s.foreign + {rec})
  }

  function Produced(cfg: Config, c: Consumer.State, e: OutboxEvent): Consumer.State {
    Consumer.Apply(cfg.consumer, c, Consumer.Append(cfg.partitionOf(e.key), ProducedRecord(e)))
  }

  ghost function Run(cfg: Config, run: seq<Step>): Option<State> {
    if run == [] then Some(Init())
    else match Run(cfg, run[..|run| - 1])
      case None => None
      case Some(s) => if Enabled(cfg, s, run[|run| - 1]) then Some(Apply(cfg, s, run[|run| - 1])) else None
  }

  // ----- the links between the parts -----

  ghost predicate HasRow(rows: map<Outbox.RowId, Outbox.Row>, e: OutboxEvent) {
    exists id :: id in rows && rows[id].event == e
  }

  ghost predicate InLog(log: map<Consumer.Part, seq<Record>>, p: nat, o: nat, rec: Record) {
    o < |Consumer.LogOf(log, p)| && Consumer.LogOf(log, p)[o] == rec
  }

  /** Every committed event has its outbox row, and every row belongs to a committed event. */
  ghost predicate RowsLinked(events: seq<OutboxEvent>, rows: map<Outbox.RowId, Outbox.Row>) {
    && (forall e :: e in events ==> HasRow(rows, e))
    && (forall id :: id in rows ==> rows[id].event in events)
  }

  /** Every copy the outbox delivered is in the log. */
  ghost predicate CopiesLinked(cfg: Config, o: Outbox.State, log: map<Consumer.Part, seq<Record>>) {
    forall c :: c in o.sent ==> c.id in o.rows && LoggedEvent(cfg, log, o.rows[c.id].event)
  }

  ghost predicate LoggedEvent(cfg: Config, log: map<Consumer.Part, seq<Record>>, e: OutboxEvent) {
    exists o: nat :: InLog(log, cfg.partitionOf(e.key), o, ProducedRecord(e))
  }

  /** Every record in the log comes from an outbox row or from elsewhere. */
  ghost predicate LogLinked(events: seq<OutboxEvent>, log: map<Consumer.Part, seq<Record>>, foreign: set<Record>) {
    forall p: nat, o: nat :: o < |Consumer.LogOf(log, p)| ==>
      Consumer.LogOf(log, p)[o] in foreign || FromEvent(events, Consumer.LogOf(log, p)[o])
  }

  ghost predicate FromEvent(events: seq<OutboxEvent>, rec: Record) {
    exists e :: e in events && ProducedRecord(e) == rec
  }

  ghost predicate Inv(cfg: Config, s: State) {
    && Money.Reachable(cfg.money, s.money) && Outbox.Reachable(cfg.outbox, s.outbox) && Consumer.Reachable(cfg.consumer, s.consumer)
    && RowsLinked(s.money.db.events, s.outbox.rows)
    && CopiesLinked(cfg, s.outbox, s.consumer.log)
    && LogLinked(s.money.db.events, s.consumer.log, s.foreign)
  }

  lemma InitInv(cfg: Config)
    ensures Inv(cfg, Init())
  {
    assert Money.Run(cfg.money, []) == Some(Money.Init());
    assert Outbox.Run(cfg.outbox, []) == Some(Outbox.Init());
    assert Consumer.Run(cfg.consumer, []) == Some(Consumer.Init());
  }

  // ----- every step keeps them -----

  lemma AppendGrowsLog(cfg: Config, c: Consumer.State, p: nat, rec: Record)
    ensures var t := Consumer.Apply(cfg.consumer, c, Consumer.Append(p, rec));
      && (forall q, o, r :: InLog(c.log, q, o, r) ==> InLog(t.log, q, o, r))
      && InLog(t.log, p, |Consumer.LogOf(c.log, p)|, rec)
      && (forall q: nat, o: nat :: o < |Consumer.LogOf(t.log, q)| ==>
            Consumer.LogOf(t.log, q)[o] == rec || (o < |Consumer.LogOf(c.log, q)| && Consumer.LogOf(t.log, q)[o] == Consumer.LogOf(c.log, q)[o]))
  {
  }

  lemma CopiesSurviveAppend(cfg: Config, o: Outbox.State, c: Consumer.State, p: nat, rec: Record)
    requires CopiesLinked(cfg, o, c.log)
    ensures CopiesLinked(cfg, o, Consumer.Apply(cfg.consumer, c, Consumer.Append(p, rec)).log)
  {
    AppendGrowsLog(cfg, c, p, rec);
    var log := Consumer.Apply(cfg.consumer, c, Consumer.Append(p, rec)).log;
    forall copy | copy in o.sent ensures copy.id in o.rows && LoggedEvent(cfg, log, o.rows[copy.id].event) {
      var e := o.rows[copy.id].event;
      var at: nat :| InLog(c.log, cfg.partitionOf(e.key), at, ProducedRecord(e));
      assert InLog(log, cfg.partitionOf(e.key), at, ProducedRecord(e));
    }
  }

  lemma LogSurvivesAppend(cfg: Config, events: seq<OutboxEvent>, foreign: set<Record>, c: Consumer.State, p: nat, rec: Record)
    requires LogLinked(events, c.log, foreign) && (rec in foreign || FromEvent(events, rec))
    ensures LogLinked(events, Consumer.Apply(cfg.consumer, c, Consumer.Append(p, rec)).log, foreign)
  {
    AppendGrowsLog(cfg, c, p, rec);
  }

  lemma EventsGrow(cfg: Config, s: State, m: Money.Step)
    requires Money.Enabled(cfg.money, s.money, m)
    ensures var t := Money.Apply(cfg.money, s.money, m);
      t.db.events == s.money.db.events ||
      (t.db.events != [] && t.db.events == s.money.db.events + [t.db.events[|t.db.events| - 1]])
  {
  }

  lemma LogSurvivesEvents(events: seq<OutboxEvent>, more: seq<OutboxEvent>, log: map<Consumer.Part, seq<Record>>, foreign: set<Record>)
    requires LogLinked(events, log, foreign) && events <= more
    ensures LogLinked(more, log, foreign)
  {
    forall p: nat, o: nat | o < |Consumer.LogOf(log, p)|
      ensures Consumer.LogOf(log, p)[o] in foreign || FromEvent(more, Consumer.LogOf(log, p)[o]) {
      var rec := Consumer.LogOf(log, p)[o];
      if rec !in foreign {
        var e :| e in events && ProducedRecord(e) == rec;
        assert e in more;
      }
    }
  }

  lemma MoneyKeepsInv(cfg: Config, s: State, step: Step)
    requires Inv(cfg, s) && step.MoneyStep? && Enabled(cfg, s, step)
    ensures Inv(cfg, Apply(cfg, s, step))
  {
    hide Money.Reachable, Outbox.Reachable, Consumer.Reachable, CopiesLinked, LogLinked, Money.Apply, Money.Enabled;
    var t, m := Apply(cfg, s, step), step.money;
    Money.ReachableStep(cfg.money, s.money, m);
    EventsGrow(cfg, s, m);
    LogSurvivesEvents(s.money.db.events, t.money.db.events, s.consumer.log, s.foreign);
    if CommitsEvent(cfg, s, m) {
      var insert := InsertOf(cfg, s, m, step.id, step.at);
      Outbox.ReachableStep(cfg.outbox, s.outbox, insert);
      InsertKeepsRows(s.money.db.events, s.outbox.rows, step.id, t.outbox.rows[step.id]);
      InsertKeepsCopies(cfg, s.outbox, t.outbox, s.consumer.log);
    }
  }

  lemma InsertKeepsRows(events: seq<OutboxEvent>, rows: map<Outbox.RowId, Outbox.Row>, id: Outbox.RowId, row: Outbox.Row)
    requires RowsLinked(events, rows) && id !in rows
    ensures RowsLinked(events + [row.event], rows[id := row])
  {
    var after := rows[id := row];
    forall e | e in events + [row.event] ensures HasRow(after, e) {
      if e in events {
        var k :| k in rows && rows[k].event == e;
        assert after[k].event == e;
      } else {
        assert after[id].event == e;
      }
    }
  }

  lemma InsertKeepsCopies(cfg: Config, o: Outbox.State, t: Outbox.State, log: map<Consumer.Part, seq<Record>>)
    requires CopiesLinked(cfg, o, log) && t.sent == o.sent
    requires forall id :: id in o.rows ==> id in t.rows && t.rows[id].event == o.rows[id].event
    ensures CopiesLinked(cfg, t, log)
  {
  }

  /** Rows keep their events through every outbox step, and a step delivers at most one copy. */
  lemma OutboxStepFacts(cfg: Config, s: State, o: Outbox.Step)
    requires Outbox.Reachable(cfg.outbox, s.outbox) && Outbox.Enabled(cfg.outbox, s.outbox, o) && !o.Insert?
    ensures var t := Outbox.Apply(cfg.outbox, s.outbox, o);
      && t.rows.Keys == s.outbox.rows.Keys
      && (forall id :: id in s.outbox.rows ==> t.rows[id].event == s.outbox.rows[id].event)
      && (t.sent == s.outbox.sent || (t.sent != [] && t.sent == s.outbox.sent + [t.sent[|t.sent| - 1]]))
  {
    hide Outbox.Inv, Outbox.Reachable, Outbox.Run, Outbox.Backoff, Outbox.Candidates, Outbox.Eligible;
    Outbox.ReachableInv(cfg.outbox, s.outbox);
    OutboxSafety.StepIsLater(cfg.outbox, s.outbox, o);
  }

  lemma RowsSurvive(events: seq<OutboxEvent>, rows: map<Outbox.RowId, Outbox.Row>, later: map<Outbox.RowId, Outbox.Row>)
    requires RowsLinked(events, rows) && later.Keys == rows.Keys
    requires forall id :: id in rows ==> later[id].event == rows[id].event
    ensures RowsLinked(events, later)
  {
    forall e | e in events ensures HasRow(later, e) {
      var k :| k in rows && rows[k].event == e;
      assert later[k].event == e;
    }
  }

  lemma OutboxKeepsInv(cfg: Config, s: State, step: Step)
    requires Inv(cfg, s) && step.OutboxStep? && Enabled(cfg, s, step)
    ensures Inv(cfg, Apply(cfg, s, step))
  {
    hide Money.Reachable, Outbox.Reachable, Consumer.Reachable, RowsLinked, LogLinked, Outbox.Apply, Outbox.Enabled;
    var t, o := Apply(cfg, s, step), step.outbox;
    Outbox.ReachableStep(cfg.outbox, s.outbox, o);
    OutboxStepFacts(cfg, s, o);
    RowsSurvive(s.money.db.events, s.outbox.rows, t.outbox.rows);
    if Delivers(cfg, s, o) {
      var e := DeliveredEvent(cfg, s, o).value;
      var p, rec := cfg.partitionOf(e.key), ProducedRecord(e);
      Consumer.ReachableStep(cfg.consumer, s.consumer, Consumer.Append(p, rec));
      CopiesSurviveAppend(cfg, s.outbox, s.consumer, p, rec);
      AppendGrowsLog(cfg, s.consumer, p, rec);
      assert LoggedEvent(cfg, t.consumer.log, e);
      LogSurvivesAppend(cfg, s.money.db.events, s.foreign, s.consumer, p, rec);
    }
  }

  /** Only Append writes to the log. */
  lemma ConsumerKeepsLog(cfg: Consumer.Config, s: Consumer.State, c: Consumer.Step)
    requires !c.Append? && Consumer.Enabled(cfg, s, c)
    ensures Consumer.Apply(cfg, s, c).log == s.log
  {
    hide Consumer.Goto, Consumer.Exit, Consumer.AfterPublish, Consumer.AfterDone, Consumer.AfterFail,
      Consumer.AfterDeadLetter, Consumer.AfterCommit;
  }

  lemma ConsumerKeepsInv(cfg: Config, s: State, c: Consumer.Step)
    requires Inv(cfg, s) && !c.Append? && Consumer.Enabled(cfg.consumer, s.consumer, c)
    ensures Inv(cfg, s.(consumer := Consumer.Apply(cfg.consumer, s.consumer, c)))
  {
    hide Money.Reachable, Outbox.Reachable, Consumer.Reachable, RowsLinked, CopiesLinked, LogLinked, Consumer.Apply,
      Consumer.Enabled;
    Consumer.ReachableStep(cfg.consumer, s.consumer, c);
    ConsumerKeepsLog(cfg.consumer, s.consumer, c);
  }

  lemma ForeignKeepsInv(cfg: Config, s: State, p: nat, rec: Record)
    requires Inv(cfg, s)
    ensures Inv(cfg, Apply(cfg, s, ForeignRecord(p, rec)))
  {
    Consumer.ReachableStep(cfg.consumer, s.consumer, Consumer.Append(p, rec));
    CopiesSurviveAppend(cfg, s.outbox, s.consumer, p, rec);
    LogSurvivesAppend(cfg, s.money.db.events, s.foreign + {rec}, s.consumer, p, rec);
  }

  lemma TickKeepsInv(cfg: Config, s: State, d: nat)
    requires Inv(cfg, s)
    ensures Inv(cfg, Apply(cfg, s, Tick(d)))
  {
    Outbox.ReachableStep(cfg.outbox, s.outbox, Outbox.Tick(d));
    ConsumerKeepsInv(cfg, s, Consumer.Tick(d));
  }

  lemma {:induction false} RunKeepsInv(cfg: Config, run: seq<Step>)
    requires Run(cfg, run).Some?
    ensures Inv(cfg, Run(cfg, run).value)
  {
    hide Inv, Money.Apply, Outbox.Apply, Consumer.Apply, Money.Enabled, Outbox.Enabled, Consumer.Enabled;
    if run == [] {
      InitInv(cfg);
    } else {
      var before, step := run[..|run| - 1], run[|run| - 1];
      RunKeepsInv(cfg, before);
      var s := Run(cfg, before).value;
      match step
      case Tick(d) => TickKeepsInv(cfg, s, d);
      case MoneyStep(_, _, _) => MoneyKeepsInv(cfg, s, step);
      case OutboxStep(_) => OutboxKeepsInv(cfg, s, step);
      case ConsumerStep(c) => ConsumerKeepsInv(cfg, s, c);
      case ForeignRecord(p, rec) => ForeignKeepsInv(cfg, s, p, rec);
    }
  }

  // ----- the guarantees -----

  /** The row waits for a worker: at every instant from ReadyAt on, Claim's WHERE clause accepts it. */
  ghost predicate Waiting(cfg: Config, row: Outbox.Row) {
    forall now: Time, clock: Time :: now >= OutboxSafety.ReadyAt(cfg.outbox, row) && clock >= OutboxSafety.ReadyAt(cfg.outbox, row) ==>
      Outbox.Eligible(cfg.outbox, row, now, clock)
  }

  /** The event's own push has reached the stream, unless a record from elsewhere borrows its id. */
  ghost predicate Shown(s: State, e: OutboxEvent) {
    && Publishable(ProducedRecord(e)) && Consumer.PushedEvent(s.consumer.pushed, e.eventId)
    && (Borrowed(s.foreign, e.eventId) || PushOf(ProducedRecord(e)) in s.consumer.pushed)
  }

  ghost predicate Borrowed(foreign: set<Record>, eventId: string) {
    exists rec :: rec in foreign && Publishable(rec) && PushOf(rec).eventId == eventId
  }

  /** The event is in the log, and there it is still to be read, or has reached the stream or the DLQ. */
  ghost predicate InFlight(cfg: Config, s: State, e: OutboxEvent, p: nat, o: nat) {
    && InLog(s.consumer.log, p, o, ProducedRecord(e))
    && (o >= Consumer.CommittedOf(s.consumer, p)
        || Shown(s, e)
        || (!Publishable(ProducedRecord(e)) &&
            Consumer.Settled(cfg.consumer, Consumer.FactsOf(s.consumer), s.consumer.dlq, p, o, ProducedRecord(e))))
  }

  ghost predicate Kept(cfg: Config, s: State, e: OutboxEvent) {
    exists id :: id in s.outbox.rows && s.outbox.rows[id].event == e &&
      (Waiting(cfg, s.outbox.rows[id]) || exists p: nat, o: nat :: InFlight(cfg, s, e, p, o))
  }

  /**
   No committed gift is lost: whatever crashed and however the steps interleaved, the event of every committed
   order waits in an outbox row that becomes claimable, or lies in the log where it is still to be read or has
   been pushed; only an event the handler rejects can have gone to the DLQ instead.
   */
  lemma NoGiftLost(cfg: Config, run: seq<Step>, i: nat)
    requires Run(cfg, run).Some? && i < |Run(cfg, run).value.money.db.orders|
    ensures var s := Run(cfg, run).value;
      && i < |s.money.db.events|
      && Money.Announces(cfg.money, s.money.db.orders[i], s.money.db.events[i])
      && Kept(cfg, s, s.money.db.events[i])
  {
    hide Run, Money.Reachable, Outbox.Reachable, Consumer.Reachable, LogLinked, Money.OrdersOk, Money.EventFor;
    RunKeepsInv(cfg, run);
    var s := Run(cfg, run).value;
    MoneySafety.AtomicTriple(cfg.money, s.money);
    var e := s.money.db.events[i];
    assert e in s.money.db.events;
    var id :| id in s.outbox.rows && s.outbox.rows[id].event == e;
    var row := s.outbox.rows[id];
    if row.status == Outbox.Published {
      OutboxSafety.NoRowStranded(cfg.outbox, s.outbox, id, OutboxSafety.ReadyAt(cfg.outbox, row), OutboxSafety.ReadyAt(cfg.outbox, row));
      var k :| 0 <= k < |s.outbox.sent| && s.outbox.sent[k].id == id;
      assert s.outbox.sent[k] in s.outbox.sent;
      LoggedIsInFlight(cfg, s, e);
    } else {
      forall now: Time, clock: Time | now >= OutboxSafety.ReadyAt(cfg.outbox, row) && clock >= OutboxSafety.ReadyAt(cfg.outbox, row)
        ensures Outbox.Eligible(cfg.outbox, row, now, clock) {
        OutboxSafety.NoRowStranded(cfg.outbox, s.outbox, id, now, clock);
      }
    }
  }

  /** A push under the id of a committed event is that event's push, or comes from elsewhere. */
  lemma PushedIsShown(cfg: Config, s: State, e: OutboxEvent)
    requires Inv(cfg, s) && e in s.money.db.events
    requires Publishable(ProducedRecord(e)) && Consumer.PushedEvent(s.consumer.pushed, e.eventId)
    ensures Shown(s, e)
  {
    hide Money.Reachable, Outbox.Reachable, Consumer.Reachable, RowsLinked, CopiesLinked;
    var push :| push in s.consumer.pushed && push.eventId == e.eventId;
    var rec := OriginOf(cfg, s, push);
    if rec !in s.foreign {
      var f :| f in s.money.db.events && ProducedRecord(f) == rec;
      SameIdSameEvent(cfg, s, e, f);
    }
  }

  /** The record a push was made from. */
  lemma OriginOf(cfg: Config, s: State, push: Push) returns (rec: Record)
    requires Inv(cfg, s) && push in s.consumer.pushed
    ensures Publishable(rec) && PushOf(rec) == push && (rec in s.foreign || FromEvent(s.money.db.events, rec))
  {
    Consumer.ReachableInv(cfg.consumer, s.consumer);
    var p: nat, o: nat :| Consumer.InLog(s.consumer.log, p, o, push);
    rec := Consumer.LogOf(s.consumer.log, p)[o];
  }

  lemma SameIdSameEvent(cfg: Config, s: State, e: OutboxEvent, f: OutboxEvent)
    requires Money.Reachable(cfg.money, s.money) && e in s.money.db.events && f in s.money.db.events
    requires Publishable(ProducedRecord(e)) && Publishable(ProducedRecord(f))
    requires Admitted(ProducedRecord(f)) == Some(e.eventId)
    ensures e == f
  {
    MoneySafety.AtomicTriple(cfg.money, s.money);
    var i :| 0 <= i < |s.money.db.events| && s.money.db.events[i] == e;
    var j :| 0 <= j < |s.money.db.events| && s.money.db.events[j] == f;
    assert Money.Announces(cfg.money, s.money.db.orders[j], f);
  }

  lemma LoggedIsInFlight(cfg: Config, s: State, e: OutboxEvent)
    requires Inv(cfg, s) && LoggedEvent(cfg, s.consumer.log, e) && e in s.money.db.events
    ensures exists p: nat, o: nat :: InFlight(cfg, s, e, p, o)
  {
    var p := cfg.partitionOf(e.key);
    var o: nat :| InLog(s.consumer.log, p, o, ProducedRecord(e));
    MoneySafety.AtomicTriple(cfg.money, s.money);
    if o < Consumer.CommittedOf(s.consumer, p) {
      ConsumerSafety.CommittedPrefix(cfg.consumer, s.consumer, p, o);
      if Publishable(ProducedRecord(e)) { PushedIsShown(cfg, s, e); }
    }
    assert InFlight(cfg, s, e, p, o);
  }

  /** The consumer accepts the event of an order exactly when these fields are in range. */
  lemma GiftAcceptedIff(cfg: Money.Config, o: Money.Order, name: string, eventId: string)
    requires Money.OrderOk(o)
    ensures Publishable(ProducedRecord(Money.EventFor(cfg, o, name, eventId))) <==>
      !Blank(eventId) && o.roomId > 0 && o.orderNo != "" && o.userId > 0 && o.anchorId > 0 && o.giftId > 0 && name != ""
  {
    assert EVENT_TYPE_GIFT_SENT[0] == 'g';
  }

  /** What viewers see was paid for: a push that no foreign record explains shows the data of a committed order. */
  lemma PushedWasPaid(cfg: Config, run: seq<Step>, push: Push)
    requires Run(cfg, run).Some? && push in Run(cfg, run).value.consumer.pushed
    ensures var s := Run(cfg, run).value;
      || (exists rec :: rec in s.foreign && Publishable(rec) && PushOf(rec) == push)
      || (exists i, name :: 0 <= i < |s.money.db.orders| && Shows(cfg, s.money.db.orders[i], name, push))
  {
    RunKeepsInv(cfg, run);
    var s := Run(cfg, run).value;
    var rec := OriginOf(cfg, s, push);
    if rec !in s.foreign {
      var e :| e in s.money.db.events && ProducedRecord(e) == rec;
      MoneySafety.AtomicTriple(cfg.money, s.money);
      var i :| 0 <= i < |s.money.db.events| && s.money.db.events[i] == e;
      assert Money.Announces(cfg.money, s.money.db.orders[i], e);
      var name :| e == Money.EventFor(cfg.money, s.money.db.orders[i], name, e.eventId);
      assert Shows(cfg, s.money.db.orders[i], name, push);
    }
  }

  ghost predicate Shows(cfg: Config, o: Money.Order, name: string, push: Push) {
    push.roomId == o.roomId && push.gift == Gift(o.orderNo, o.userId, o.anchorId, o.giftId, name, o.count, o.unitPrice, o.total)
  }
}
