/**
 The gift consumers of one group: Consumer.Run of internal/mq/kafka.go around ConsumerHandler.Handle of
 internal/gift/consumer.go, over the dedup table of internal/eventdedup/store.go.

 Any number of consumer processes take steps in any order. A process may start reading any partition at its
 committed offset at any time, so a partition may have several readers and offsets may be committed out of
 order: this covers rebalances, fenced members and restarts. Every remote call may fail with or without its
 effect. The field history records what happened to each event's lock and is never read by a guard.
 */
module Consumer {
  import opened Basics
  import opened Events
  import opened DeadLetters

  type Part = nat
  type ConsumerId = nat

  datatype DedupRow = DedupRow(done: bool, lockedAt: Option<Time>)

  /** What became of an event's lock, oldest first. */
  datatype Mark = Granted(to: ConsumerId, checked: Time, at: Time) | Released | Finished

  datatype Effect = Fresh | Pushed | Failing(permanent: bool)

  /**
   Where a consumer is with its current record. Reading: Begin's SELECT returned; with a row it holds the row's
   lock. Active: Begin granted the event. Settling: handled or dead-lettered, not yet committed.
   */
  datatype Stage = Deliver | Reading(seen: Option<DedupRow>) | Active(since: Time, effect: Effect) | DeadLettering | Settling

  datatype Task = Task(p: Part, o: nat, stage: Stage)

  datatype Process = Process(positions: map<Part, nat>, work: Option<Task>)

  datatype State = State(
    now: Time,
    log: map<Part, seq<Record>>,
    committed: map<Part, nat>,
    dedup: map<string, DedupRow>,
    procs: map<ConsumerId, Process>,
    pushed: set<Push>,
    dlq: seq<DeadLetter>,
    history: map<string, seq<Mark>>)

  datatype Config = Config(lease: nat, group: string, topic: string)

  datatype Step =
    | Tick(elapsed: nat)
    | Append(p: Part, rec: Record)
    | Assign(c: ConsumerId, p: Part)
    | Revoke(c: ConsumerId, p: Part)
    | Fetch(c: ConsumerId, p: Part)
    | Reject(c: ConsumerId)
    | BeginSelect(c: ConsumerId)
    | BeginDone(c: ConsumerId)
    | BeginGrant(c: ConsumerId, clock: Time, stamp: Time, acked: bool)
    | BeginError(c: ConsumerId)
    | Decode(c: ConsumerId)
    | Publish(c: ConsumerId, acked: bool, delivered: bool)
    | Done(c: ConsumerId, acked: bool, executed: bool)
    | Fail(c: ConsumerId, acked: bool, executed: bool)
    | DeadLetter(c: ConsumerId, acked: bool, delivered: bool)
    | Commit(c: ConsumerId, acked: bool, executed: bool)
    | Crash(c: ConsumerId)

  function Init(): State {
    State(0, map[], map[], map[], map[], {}, [], map[])
  }

  // ----- reading the state -----

  function LogOf(log: map<Part, seq<Record>>, p: Part): seq<Record> {
    if p in log then log[p] else []
  }

  function CommittedOf(s: State, p: Part): nat {
    if p in s.committed then s.committed[p] else 0
  }

  predicate Working(s: State, c: ConsumerId) {
    c in s.procs && s.procs[c].work.Some? && s.procs[c].work.value.o < |LogOf(s.log, s.procs[c].work.value.p)|
  }

  function TaskOf(s: State, c: ConsumerId): Task
    requires Working(s, c)
  {
    s.procs[c].work.value
  }

  function RecordOf(s: State, c: ConsumerId): Record
    requires Working(s, c)
  {
    LogOf(s.log, TaskOf(s, c).p)[TaskOf(s, c).o]
  }

  predicate InStage(s: State, c: ConsumerId, stage: Stage) {
    Working(s, c) && TaskOf(s, c).stage == stage
  }

  /** The consumer is inside Begin .. Fail of the event e. */
  predicate On(s: State, c: ConsumerId, e: string) {
    Working(s, c) && Admitted(RecordOf(s, c)) == Some(e)
  }

  predicate LocksKey(s: State, c: ConsumerId, e: string) {
    On(s, c, e) && TaskOf(s, c).stage.Reading? && TaskOf(s, c).stage.seen.Some?
  }

  predicate KeyLocked(s: State, e: string) {
    exists c | c in s.procs :: LocksKey(s, c, e)
  }

  predicate IsActive(s: State, c: ConsumerId, e: string) {
    On(s, c, e) && TaskOf(s, c).stage.Active?
  }

  function EventOf(s: State, c: ConsumerId): string
    requires Working(s, c) && Admitted(RecordOf(s, c)).Some?
  {
    Admitted(RecordOf(s, c)).value
  }

  function Row(s: State, e: string): Option<DedupRow> {
    if e in s.dedup then Some(s.dedup[e]) else None
  }

  function HistoryOf(history: map<string, seq<Mark>>, e: string): seq<Mark> {
    if e in history then history[e] else []
  }

  /** Begin's lease test: not ErrBusy. */
  predicate Free(cfg: Config, row: DedupRow, clock: Time) {
    row.lockedAt == None || row.lockedAt.value + cfg.lease <= clock
  }

  // ----- effects -----

  function SetWork(s: State, c: ConsumerId, work: Option<Task>): State
    requires c in s.procs
  {
    s.(procs := s.procs[c := s.procs[c].(work := work)])
  }

  function Goto(s: State, c: ConsumerId, stage: Stage): (t: State)
    requires Working(s, c)
    ensures t.log == s.log
  {
    SetWork(s, c, Some(TaskOf(s, c).(stage := stage)))
  }

  function Exit(s: State, c: ConsumerId): (t: State)
    ensures t.log == s.log
  {
    s.(procs := map d | d in s.procs && d != c :: s.procs[d])
  }

  function Remember(s: State, e: string, row: DedupRow, mark: Mark): State {
    s.(dedup := s.dedup[e := row], history := s.history[e := HistoryOf(s.history, e) + [mark]])
  }

  function LetterOf(cfg: Config, p: Part, o: nat, rec: Record): DeadLetter {
    NewDeadLetter(cfg.group, cfg.topic, p, o, rec,
      if Admitted(rec) == None then "invalid gift envelope" else "invalid gift payload")
  }

  // ----- the step system -----

  predicate Enabled(cfg: Config, s: State, step: Step) {
    match step
    case Tick(_) => true
    case Append(_, _) => true
    case Assign(c, p) => c in s.procs ==> s.procs[c].work == None
    case Revoke(c, p) => c in s.procs && s.procs[c].work == None
    case Fetch(c, p) =>
      c in s.procs && s.procs[c].work == None && p in s.procs[c].positions && s.procs[c].positions[p] < |LogOf(s.log, p)|
    case Reject(c) => InStage(s, c, Deliver) && Admitted(RecordOf(s, c)) == None
    case BeginSelect(c) =>
      InStage(s, c, Deliver) && Admitted(RecordOf(s, c)).Some? && !KeyLocked(s, EventOf(s, c))
    case BeginDone(c) => Working(s, c) && Admitted(RecordOf(s, c)).Some? && TaskOf(s, c).stage.Reading? &&
      TaskOf(s, c).stage.seen.Some? && TaskOf(s, c).stage.seen.value.done
    case BeginGrant(c, clock, stamp, acked) =>
      && Working(s, c) && Admitted(RecordOf(s, c)).Some? && TaskOf(s, c).stage.Reading? && clock <= stamp <= s.now
      && (match TaskOf(s, c).stage.seen
          case None => Row(s, EventOf(s, c)) == None
          case Some(row) => !row.done && Free(cfg, row, clock))
    case BeginError(c) => Working(s, c) && TaskOf(s, c).stage.Reading?
    case Decode(c) => Working(s, c) && TaskOf(s, c).stage.Active? && TaskOf(s, c).stage.effect == Fresh &&
      DecodeGift(RecordOf(s, c)) == None
    case Publish(c, acked, delivered) =>
      && Working(s, c) && TaskOf(s, c).stage.Active? && TaskOf(s, c).stage.effect == Fresh
      && Publishable(RecordOf(s, c)) && (acked ==> delivered)
    case Done(c, acked, executed) =>
      && Working(s, c) && TaskOf(s, c).stage.Active? && TaskOf(s, c).stage.effect == Pushed && (acked ==> executed)
      && Admitted(RecordOf(s, c)).Some? && (executed ==> EventOf(s, c) in s.dedup && !KeyLocked(s, EventOf(s, c)))
    case Fail(c, acked, executed) =>
      && Working(s, c) && TaskOf(s, c).stage.Active? && TaskOf(s, c).stage.effect.Failing? && (acked ==> executed)
      && Admitted(RecordOf(s, c)).Some?
      && (executed ==> EventOf(s, c) in s.dedup && !s.dedup[EventOf(s, c)].done && !KeyLocked(s, EventOf(s, c)))
    case DeadLetter(c, acked, delivered) =>
      && InStage(s, c, DeadLettering) && (acked ==> delivered)
      && (delivered ==> Valid(LetterOf(cfg, TaskOf(s, c).p, TaskOf(s, c).o, RecordOf(s, c))))
    case Commit(c, acked, executed) => InStage(s, c, Settling) && (acked ==> executed)
    case Crash(c) => c in s.procs
  }

  function Assigned(s: State, c: ConsumerId, p: Part): State {
    var positions := if c in s.procs then s.procs[c].positions else map[];
    s.(procs := s.procs[c := Process(positions[p := CommittedOf(s, p)], None)])
  }

  function Grant(s: State, c: ConsumerId, clock: Time, stamp: Time, acked: bool): State
    requires Working(s, c) && Admitted(RecordOf(s, c)).Some?
  {
    Remember(Goto(s, c, if acked then Active(stamp, Fresh) else Deliver),
             EventOf(s, c), DedupRow(false, Some(stamp)), Granted(c, clock, stamp))
  }

  function AfterPublish(s: State, c: ConsumerId, acked: bool, delivered: bool): (t: State)
    requires Working(s, c) && TaskOf(s, c).stage.Active? && Publishable(RecordOf(s, c))
    ensures t.log == s.log
  {
    Goto(s, c, Active(TaskOf(s, c).stage.since, if acked then Pushed else Failing(false))).(
      pushed := if delivered then s.pushed + {PushOf(RecordOf(s, c))} else s.pushed)
  }

  function AfterDone(s: State, c: ConsumerId, acked: bool, executed: bool): (t: State)
    requires Working(s, c) && Admitted(RecordOf(s, c)).Some?
    ensures t.log == s.log
  {
    var t := Goto(s, c, if acked then Settling else Deliver);
    if executed then Remember(t, EventOf(s, c), DedupRow(true, None), Finished) else t
  }

  function AfterFail(s: State, c: ConsumerId, acked: bool, executed: bool): (t: State)
    requires Working(s, c) && Admitted(RecordOf(s, c)).Some?
    requires TaskOf(s, c).stage.Active? && TaskOf(s, c).stage.effect.Failing?
    ensures t.log == s.log
  {
    var t := Goto(s, c, if acked && TaskOf(s, c).stage.effect.permanent then DeadLettering else Deliver);
    if executed then Remember(t, EventOf(s, c), DedupRow(false, None), Released) else t
  }

  /** A failed DLQ write ends Run, and with it the process. */
  function AfterDeadLetter(cfg: Config, s: State, c: ConsumerId, acked: bool, delivered: bool): (t: State)
    requires Working(s, c)
    ensures t.log == s.log
  {
    var t := if acked then Goto(s, c, Settling) else Exit(s, c);
    if delivered then t.(dlq := s.dlq + [LetterOf(cfg, TaskOf(s, c).p, TaskOf(s, c).o, RecordOf(s, c))]) else t
  }

  /** So does a failed offset commit. */
  function AfterCommit(s: State, c: ConsumerId, acked: bool, executed: bool): (t: State)
    requires Working(s, c)
    ensures t.log == s.log
  {
    var p, o := TaskOf(s, c).p, TaskOf(s, c).o;
    var t := if acked then s.(procs := s.procs[c := Process(s.procs[c].positions[p := o + 1], None)]) else Exit(s, c);
    if executed then t.(committed := s.committed[p := o + 1]) else t
  }

  function Apply(cfg: Config, s: State, step: Step): State
    requires Enabled(cfg, s, step)
  {
    match step
    case Tick(d) => s.(now := s.now + d)
    case Append(p, rec) => s.(log := s.log[p := LogOf(s.log, p) + [rec]])
    case Assign(c, p) => Assigned(s, c, p)
    case Revoke(c, p) => s.(procs := s.procs[c := s.procs[c].(positions := s.procs[c].positions - {p})])
    case Fetch(c, p) => SetWork(s, c, Some(Task(p, s.procs[c].positions[p], Deliver)))
    case Reject(c) => Goto(s, c, DeadLettering)
    case BeginSelect(c) => Goto(s, c, Reading(Row(s, EventOf(s, c))))
    case BeginDone(c) => Goto(s, c, Settling)
    case BeginGrant(c, clock, stamp, acked) => Grant(s, c, clock, stamp, acked)
    case BeginError(c) => Goto(s, c, Deliver)
    case Decode(c) => Goto(s, c, Active(TaskOf(s, c).stage.since, Failing(true)))
    case Publish(c, acked, delivered) => AfterPublish(s, c, acked, delivered)
    case Done(c, acked, executed) => AfterDone(s, c, acked, executed)
    case Fail(c, acked, executed) => AfterFail(s, c, acked, executed)
    case DeadLetter(c, acked, delivered) => AfterDeadLetter(cfg, s, c, acked, delivered)
    case Commit(c, acked, executed) => AfterCommit(s, c, acked, executed)
    case Crash(c) => Exit(s, c)
  }

  function Run(cfg: Config, run: seq<Step>): Option<State> {
    if run == [] then Some(Init())
    else match Run(cfg, run[..|run| - 1])
      case None => None
      case Some(s) => if Enabled(cfg, s, run[|run| - 1]) then Some(Apply(cfg, s, run[|run| - 1])) else None
  }

  ghost predicate Reachable(cfg: Config, s: State) {
    exists run :: Run(cfg, run) == Some(s)
  }

  // ----- the inductive invariant -----

  ghost predicate PushedEvent(pushed: set<Push>, e: string) {
    exists push :: push in pushed && push.eventId == e
  }

  /** The dedup row says that the event has been handled. */
  ghost predicate FinishedEvent(dedup: map<string, DedupRow>, e: string) {
    e in dedup && dedup[e].done
  }

  /** What tells a settled record: the pushes and the dedup rows. */
  datatype Facts = Facts(pushed: set<Push>, dedup: map<string, DedupRow>)

  function FactsOf(s: State): Facts {
    Facts(s.pushed, s.dedup)
  }

  /** The dead letter of a record keeps its topic, partition, offset, key and value. */
  predicate Preserves(cfg: Config, d: DeadLetter, p: Part, o: nat, rec: Record) {
    d.sourceTopic == cfg.topic && d.partition == p && d.offset == o && d.key == rec.key && d.value == rec.value
  }

  ghost predicate InDlq(cfg: Config, dlq: seq<DeadLetter>, p: Part, o: nat, rec: Record) {
    exists i :: 0 <= i < |dlq| && Preserves(cfg, dlq[i], p, o, rec)
  }

  /** A record is settled when its event is finished, hence pushed, or the record is in the DLQ unchanged. */
  ghost predicate Settled(cfg: Config, facts: Facts, dlq: seq<DeadLetter>, p: Part, o: nat, rec: Record) {
    || (Admitted(rec).Some? && FinishedEvent(facts.dedup, Admitted(rec).value))
    || InDlq(cfg, dlq, p, o, rec)
  }

  ghost predicate SettledBelow(cfg: Config, log: map<Part, seq<Record>>, facts: Facts, dlq: seq<DeadLetter>, p: Part, n: nat) {
    n <= |LogOf(log, p)| && forall o :: 0 <= o < n ==> Settled(cfg, facts, dlq, p, o, LogOf(log, p)[o])
  }

  ghost predicate CommittedOk(cfg: Config, log: map<Part, seq<Record>>, facts: Facts, dlq: seq<DeadLetter>, committed: map<Part, nat>) {
    forall p :: p in committed ==> SettledBelow(cfg, log, facts, dlq, p, committed[p])
  }

  ghost predicate PositionsOk(cfg: Config, log: map<Part, seq<Record>>, facts: Facts, dlq: seq<DeadLetter>, proc: Process) {
    forall p :: p in proc.positions ==> SettledBelow(cfg, log, facts, dlq, p, proc.positions[p])
  }

  ghost predicate StageOk(cfg: Config, facts: Facts, dlq: seq<DeadLetter>, t: Task, rec: Record) {
    match t.stage
    case Deliver => true
    case Reading(_) => Admitted(rec).Some?
    case Active(_, effect) =>
      && Admitted(rec).Some?
      && (effect == Pushed ==> PushedEvent(facts.pushed, Admitted(rec).value))
      && (effect == Failing(true) ==> DecodeGift(rec) == None)
    case DeadLettering => !Publishable(rec)
    case Settling => Settled(cfg, facts, dlq, t.p, t.o, rec)
  }

  ghost predicate ProcOk(cfg: Config, log: map<Part, seq<Record>>, facts: Facts, dlq: seq<DeadLetter>, proc: Process) {
    && PositionsOk(cfg, log, facts, dlq, proc)
    && (proc.work.Some? ==>
          var t := proc.work.value;
          && t.p in proc.positions && proc.positions[t.p] == t.o && t.o < |LogOf(log, t.p)|
          && StageOk(cfg, facts, dlq, t, LogOf(log, t.p)[t.o]))
  }

  ghost predicate ProcsOk(cfg: Config, log: map<Part, seq<Record>>, facts: Facts, dlq: seq<DeadLetter>, procs: map<ConsumerId, Process>) {
    forall c :: c in procs ==> ProcOk(cfg, log, facts, dlq, procs[c])
  }

  /** A row whose lock Begin holds is as Begin's SELECT read it, and nobody else holds that lock. */
  ghost predicate ReadsOk(s: State) {
    && (forall c, e :: LocksKey(s, c, e) ==> Row(s, e) == TaskOf(s, c).stage.seen)
    && (forall c, d, e :: LocksKey(s, c, e) && LocksKey(s, d, e) ==> c == d)
  }

  ghost predicate DoneOk(dedup: map<string, DedupRow>, pushed: set<Push>) {
    forall e :: e in dedup && dedup[e].done ==> dedup[e].lockedAt == None && PushedEvent(pushed, e)
  }

  /** Grants follow a release or a full lease, never a finish. */
  ghost predicate MarksOk(cfg: Config, marks: seq<Mark>) {
    && (forall i :: 0 <= i < |marks| && marks[i].Granted? ==> marks[i].checked <= marks[i].at)
    && (forall i :: 0 < i < |marks| && marks[i].Granted? ==>
          marks[i - 1].Released? || (marks[i - 1].Granted? && marks[i - 1].at + cfg.lease <= marks[i].checked))
    && (forall i :: 0 < i < |marks| && marks[i - 1].Finished? ==> marks[i].Finished?)
  }

  /** The row shows the last thing that happened to the lock. */
  ghost predicate RowShows(row: DedupRow, marks: seq<Mark>) {
    && marks != []
    && (match marks[|marks| - 1]
        case Granted(_, _, at) => row == DedupRow(false, Some(at))
        case Released => row == DedupRow(false, None)
        case Finished => row == DedupRow(true, None))
  }

  ghost predicate HistoryOk(cfg: Config, dedup: map<string, DedupRow>, history: map<string, seq<Mark>>) {
    && history.Keys == dedup.Keys
    && (forall e :: e in dedup ==> MarksOk(cfg, history[e]) && RowShows(dedup[e], history[e]))
  }

  /** Nothing is published that is not in the log, and every dead letter is that of a record the handler rejects. */
  ghost predicate OriginOk(log: map<Part, seq<Record>>, pushed: set<Push>) {
    forall push :: push in pushed ==> exists p, o :: InLog(log, p, o, push)
  }

  ghost predicate InLog(log: map<Part, seq<Record>>, p: Part, o: nat, push: Push) {
    o < |LogOf(log, p)| && Publishable(LogOf(log, p)[o]) && PushOf(LogOf(log, p)[o]) == push
  }

  ghost predicate LettersOk(cfg: Config, log: map<Part, seq<Record>>, dlq: seq<DeadLetter>) {
    forall i :: 0 <= i < |dlq| ==> LetterOk(cfg, log, dlq[i])
  }

  ghost predicate LetterOk(cfg: Config, log: map<Part, seq<Record>>, d: DeadLetter) {
    && Valid(d) && d.offset < |LogOf(log, d.partition)|
    && d == LetterOf(cfg, d.partition, d.offset, LogOf(log, d.partition)[d.offset])
    && !Publishable(LogOf(log, d.partition)[d.offset])
  }

  ghost predicate Inv(cfg: Config, s: State) {
    && CommittedOk(cfg, s.log, FactsOf(s), s.dlq, s.committed)
    && ProcsOk(cfg, s.log, FactsOf(s), s.dlq, s.procs)
    && ReadsOk(s)
    && DoneOk(s.dedup, s.pushed)
    && HistoryOk(cfg, s.dedup, s.history)
    && OriginOk(s.log, s.pushed)
    && LettersOk(cfg, s.log, s.dlq)
  }

  // ----- every step keeps it -----

  ghost predicate Grown(log: map<Part, seq<Record>>, facts: Facts, dlq: seq<DeadLetter>,
                        log': map<Part, seq<Record>>, facts': Facts, dlq': seq<DeadLetter>) {
    (forall p: Part :: LogOf(log, p) <= LogOf(log', p)) && dlq <= dlq' && facts.pushed <= facts'.pushed
    && (forall e :: FinishedEvent(facts.dedup, e) ==> FinishedEvent(facts'.dedup, e))
  }

  /** Logs, pushes and dead letters only grow, so what is settled stays settled. */
  lemma SettledGrows(cfg: Config, log: map<Part, seq<Record>>, facts: Facts, dlq: seq<DeadLetter>,
                     log': map<Part, seq<Record>>, facts': Facts, dlq': seq<DeadLetter>, p: Part, o: nat, rec: Record)
    requires Grown(log, facts, dlq, log', facts', dlq') && Settled(cfg, facts, dlq, p, o, rec)
    ensures Settled(cfg, facts', dlq', p, o, rec)
  {
    if InDlq(cfg, dlq, p, o, rec) {
      var i :| 0 <= i < |dlq| && Preserves(cfg, dlq[i], p, o, rec);
      assert Preserves(cfg, dlq'[i], p, o, rec);
    }
  }

  lemma BelowGrows(cfg: Config, log: map<Part, seq<Record>>, facts: Facts, dlq: seq<DeadLetter>,
                   log': map<Part, seq<Record>>, facts': Facts, dlq': seq<DeadLetter>, p: Part, n: nat)
    requires Grown(log, facts, dlq, log', facts', dlq') && SettledBelow(cfg, log, facts, dlq, p, n)
    ensures SettledBelow(cfg, log', facts', dlq', p, n)
  {
    assert LogOf(log, p) <= LogOf(log', p);
    forall o | 0 <= o < n ensures Settled(cfg, facts', dlq', p, o, LogOf(log', p)[o]) {
      SettledGrows(cfg, log, facts, dlq, log', facts', dlq', p, o, LogOf(log, p)[o]);
    }
  }

  lemma ProcGrows(cfg: Config, log: map<Part, seq<Record>>, facts: Facts, dlq: seq<DeadLetter>,
                  log': map<Part, seq<Record>>, facts': Facts, dlq': seq<DeadLetter>, proc: Process)
    requires Grown(log, facts, dlq, log', facts', dlq') && ProcOk(cfg, log, facts, dlq, proc)
    ensures ProcOk(cfg, log', facts', dlq', proc)
  {
    forall p | p in proc.positions ensures SettledBelow(cfg, log', facts', dlq', p, proc.positions[p]) {
      BelowGrows(cfg, log, facts, dlq, log', facts', dlq', p, proc.positions[p]);
    }
    if proc.work.Some? {
      var t := proc.work.value;
      var rec := LogOf(log, t.p)[t.o];
      assert LogOf(log, t.p) <= LogOf(log', t.p);
      if t.stage == Settling {
        SettledGrows(cfg, log, facts, dlq, log', facts', dlq', t.p, t.o, rec);
      }
    }
  }

  lemma EverythingGrows(cfg: Config, s: State, log': map<Part, seq<Record>>, facts': Facts, dlq': seq<DeadLetter>)
    requires Grown(s.log, FactsOf(s), s.dlq, log', facts', dlq')
    requires CommittedOk(cfg, s.log, FactsOf(s), s.dlq, s.committed) && ProcsOk(cfg, s.log, FactsOf(s), s.dlq, s.procs)
    ensures CommittedOk(cfg, log', facts', dlq', s.committed) && ProcsOk(cfg, log', facts', dlq', s.procs)
  {
    forall p | p in s.committed ensures SettledBelow(cfg, log', facts', dlq', p, s.committed[p]) {
      BelowGrows(cfg, s.log, FactsOf(s), s.dlq, log', facts', dlq', p, s.committed[p]);
    }
    forall c | c in s.procs ensures ProcOk(cfg, log', facts', dlq', s.procs[c]) {
      ProcGrows(cfg, s.log, FactsOf(s), s.dlq, log', facts', dlq', s.procs[c]);
    }
  }

  /** No new lock, and the locked rows did not change. */
  lemma LocksCarryOver(s: State, t: State)
    requires ReadsOk(s)
    requires forall c, e :: LocksKey(t, c, e) ==> LocksKey(s, c, e) && TaskOf(t, c) == TaskOf(s, c) && Row(t, e) == Row(s, e)
    ensures ReadsOk(t)
  {
  }

  lemma AppendKeepsInv(cfg: Config, s: State, p: Part, rec: Record)
    requires Inv(cfg, s)
    ensures Inv(cfg, Apply(cfg, s, Append(p, rec)))
  {
    hide ReadsOk, DoneOk, HistoryOk, CommittedOk, PositionsOk, StageOk;
    var t := Apply(cfg, s, Append(p, rec));
    EverythingGrows(cfg, s, t.log, FactsOf(t), t.dlq);
    forall i | 0 <= i < |t.dlq| ensures LetterOk(cfg, t.log, t.dlq[i]) {
      assert LetterOk(cfg, s.log, s.dlq[i]);
    }
    LocksCarryOver(s, t);
    forall push | push in t.pushed ensures exists q, o :: InLog(t.log, q, o, push) {
      var q, o :| InLog(s.log, q, o, push);
      assert InLog(t.log, q, o, push);
    }
  }

  /** A consumer without a record in hand, or with one in a stage that holds no lock. */
  lemma ProcKeepsInv(cfg: Config, s: State, c: ConsumerId, proc: Process)
    requires Inv(cfg, s) && ProcOk(cfg, s.log, FactsOf(s), s.dlq, proc)
    requires proc.work.Some? ==> !(proc.work.value.stage.Reading? && proc.work.value.stage.seen.Some?)
    ensures Inv(cfg, s.(procs := s.procs[c := proc]))
  {
    var t := s.(procs := s.procs[c := proc]);
    forall d, e | LocksKey(t, d, e) ensures LocksKey(s, d, e) && TaskOf(t, d) == TaskOf(s, d) {
      assert d != c;
    }
    LocksCarryOver(s, t);
  }

  lemma ExitKeepsInv(cfg: Config, s: State, c: ConsumerId)
    requires Inv(cfg, s)
    ensures Inv(cfg, Exit(s, c))
  {
    LocksCarryOver(s, Exit(s, c));
  }

  lemma GotoKeepsInv(cfg: Config, s: State, c: ConsumerId, stage: Stage)
    requires Inv(cfg, s) && Working(s, c) && !(stage.Reading? && stage.seen.Some?)
    requires StageOk(cfg, FactsOf(s), s.dlq, TaskOf(s, c).(stage := stage), RecordOf(s, c))
    ensures Inv(cfg, Goto(s, c, stage))
  {
    hide CommittedOk, ReadsOk, DoneOk, HistoryOk, OriginOk, LettersOk, SettledBelow, StageOk;
    assert ProcOk(cfg, s.log, FactsOf(s), s.dlq, s.procs[c]);
    ProcKeepsInv(cfg, s, c, s.procs[c].(work := Some(TaskOf(s, c).(stage := stage))));
  }

  lemma SelectKeepsInv(cfg: Config, s: State, c: ConsumerId)
    requires Inv(cfg, s) && Enabled(cfg, s, BeginSelect(c))
    ensures Inv(cfg, Apply(cfg, s, BeginSelect(c)))
  {
    hide CommittedOk, DoneOk, HistoryOk, OriginOk, LettersOk, SettledBelow;
    var t := Apply(cfg, s, BeginSelect(c));
    assert ProcOk(cfg, s.log, FactsOf(s), s.dlq, s.procs[c]);
    assert ProcOk(cfg, t.log, FactsOf(t), t.dlq, t.procs[c]);
    forall d, e | LocksKey(t, d, e) && d != c ensures LocksKey(s, d, e) && TaskOf(t, d) == TaskOf(s, d) {}
    forall d, e | LocksKey(t, d, e) ensures Row(t, e) == TaskOf(t, d).stage.seen {}
    UnlockedFor(s, EventOf(s, c));
    forall d, f, e | LocksKey(t, d, e) && LocksKey(t, f, e) ensures d == f {}
  }

  lemma RememberKeepsHistory(cfg: Config, s: State, e: string, row: DedupRow, mark: Mark)
    requires HistoryOk(cfg, s.dedup, s.history)
    requires RowShows(row, [mark]) && MarksOk(cfg, HistoryOf(s.history, e) + [mark])
    ensures HistoryOk(cfg, s.dedup[e := row], s.history[e := HistoryOf(s.history, e) + [mark]])
  {
    var marks := HistoryOf(s.history, e) + [mark];
    assert marks[|marks| - 1] == mark;
  }

  lemma ReleaseKeepsMarks(cfg: Config, row: DedupRow, marks: seq<Mark>, mark: Mark)
    requires MarksOk(cfg, marks) && RowShows(row, marks)
    requires mark.Finished? || (mark.Released? && !row.done)
    ensures MarksOk(cfg, marks + [mark])
  {
  }

  lemma GrantKeepsMarks(cfg: Config, row: DedupRow, marks: seq<Mark>, mark: Mark)
    requires MarksOk(cfg, marks) && RowShows(row, marks) && mark.Granted? && mark.checked <= mark.at
    requires !row.done && (row.lockedAt.Some? ==> row.lockedAt.value + cfg.lease <= mark.checked)
    ensures MarksOk(cfg, marks + [mark])
  {
  }

  lemma FirstMark(cfg: Config, mark: Mark)
    requires mark.Granted? && mark.checked <= mark.at
    ensures MarksOk(cfg, [] + [mark])
  {
  }

  /** Writing a row that nobody else has locked and that is not finished, unless it is finished again. */
  lemma RememberKeepsInv(cfg: Config, s: State, e: string, row: DedupRow, mark: Mark)
    requires Inv(cfg, s) && RowShows(row, [mark]) && MarksOk(cfg, HistoryOf(s.history, e) + [mark])
    requires forall c :: !LocksKey(s, c, e)
    requires row.done ==> PushedEvent(s.pushed, e)
    requires FinishedEvent(s.dedup, e) ==> row.done
    ensures Inv(cfg, Remember(s, e, row, mark))
  {
    hide CommittedOk, ProcsOk, ReadsOk, HistoryOk, OriginOk, LettersOk;
    var t := Remember(s, e, row, mark);
    RememberKeepsHistory(cfg, s, e, row, mark);
    RememberKeepsReads(s, e, row, mark);
    EverythingGrows(cfg, s, t.log, FactsOf(t), t.dlq);
  }

  lemma RememberKeepsReads(s: State, e: string, row: DedupRow, mark: Mark)
    requires ReadsOk(s) && forall c :: !LocksKey(s, c, e)
    ensures ReadsOk(Remember(s, e, row, mark))
  {
    var t := Remember(s, e, row, mark);
    forall c, f | LocksKey(t, c, f) ensures LocksKey(s, c, f) && TaskOf(t, c) == TaskOf(s, c) && Row(t, f) == Row(s, f) {
      assert LocksKey(s, c, f);
    }
    LocksCarryOver(s, t);
  }

  lemma NoLockAfter(s: State, c: ConsumerId, stage: Stage, e: string)
    requires Working(s, c) && !stage.Reading?
    requires forall d :: d != c ==> !LocksKey(s, d, e)
    ensures forall d :: !LocksKey(Goto(s, c, stage), d, e)
  {
    forall d ensures !LocksKey(Goto(s, c, stage), d, e) {
      if d != c { assert !LocksKey(s, d, e); }
    }
  }

  lemma GrantKeepsInv(cfg: Config, s: State, c: ConsumerId, clock: Time, stamp: Time, acked: bool)
    requires Inv(cfg, s) && Enabled(cfg, s, BeginGrant(c, clock, stamp, acked))
    ensures Inv(cfg, Grant(s, c, clock, stamp, acked))
  {
    hide CommittedOk, PositionsOk, DoneOk, OriginOk, LettersOk, Settled, Publishable, PushedEvent, MarksOk;
    var e, stage := EventOf(s, c), if acked then Active(stamp, Fresh) else Deliver;
    if TaskOf(s, c).stage.seen.Some? {
      assert LocksKey(s, c, e);
      GrantKeepsMarks(cfg, s.dedup[e], s.history[e], Granted(c, clock, stamp));
    } else {
      FirstMark(cfg, Granted(c, clock, stamp));
    }
    assert ProcOk(cfg, s.log, FactsOf(s), s.dlq, s.procs[c]);
    GotoKeepsInv(cfg, s, c, stage);
    NoLockAfter(s, c, stage, e);
    RememberKeepsInv(cfg, Goto(s, c, stage), e, DedupRow(false, Some(stamp)), Granted(c, clock, stamp));
  }

  lemma PushKeepsInv(cfg: Config, s: State, c: ConsumerId, delivered: bool)
    requires Inv(cfg, s) && Working(s, c) && Publishable(RecordOf(s, c))
    ensures Inv(cfg, s.(pushed := if delivered then s.pushed + {PushOf(RecordOf(s, c))} else s.pushed))
  {
    hide ReadsOk, HistoryOk, LettersOk, CommittedOk;
    if delivered {
      var t := s.(pushed := s.pushed + {PushOf(RecordOf(s, c))});
      EverythingGrows(cfg, s, t.log, FactsOf(t), t.dlq);
      LocksCarryOver(s, t);
      assert InLog(s.log, TaskOf(s, c).p, TaskOf(s, c).o, PushOf(RecordOf(s, c)));
      forall e | e in t.dedup && t.dedup[e].done ensures PushedEvent(t.pushed, e) {
        var push :| push in s.pushed && push.eventId == e;
        assert push in t.pushed;
      }
    }
  }

  lemma PublishKeepsInv(cfg: Config, s: State, c: ConsumerId, acked: bool, delivered: bool)
    requires Inv(cfg, s) && Enabled(cfg, s, Publish(c, acked, delivered))
    ensures Inv(cfg, AfterPublish(s, c, acked, delivered))
  {
    var t := s.(pushed := if delivered then s.pushed + {PushOf(RecordOf(s, c))} else s.pushed);
    PushKeepsInv(cfg, s, c, delivered);
    if acked { assert PushOf(RecordOf(s, c)) in t.pushed; }
    GotoKeepsInv(cfg, t, c, Active(TaskOf(s, c).stage.since, if acked then Pushed else Failing(false)));
  }

  lemma UnlockedFor(s: State, e: string)
    requires !KeyLocked(s, e)
    ensures forall c :: !LocksKey(s, c, e)
  {
    forall c ensures !LocksKey(s, c, e) {
      if c in s.procs { assert !LocksKey(s, c, e); }
    }
  }

  lemma DoneKeepsInv(cfg: Config, s: State, c: ConsumerId, acked: bool, executed: bool)
    requires Inv(cfg, s) && Enabled(cfg, s, Done(c, acked, executed))
    ensures Inv(cfg, AfterDone(s, c, acked, executed))
  {
    hide CommittedOk, PositionsOk, ReadsOk, OriginOk, LettersOk, MarksOk;
    var e, stage := EventOf(s, c), if acked then Settling else Deliver;
    assert ProcOk(cfg, s.log, FactsOf(s), s.dlq, s.procs[c]);
    if executed {
      UnlockedFor(s, e);
      ReleaseKeepsMarks(cfg, s.dedup[e], s.history[e], Finished);
      RememberKeepsInv(cfg, s, e, DedupRow(true, None), Finished);
      var t := Remember(s, e, DedupRow(true, None), Finished);
      GotoKeepsInv(cfg, t, c, stage);
      assert AfterDone(s, c, acked, executed) == Goto(t, c, stage);
    } else {
      GotoKeepsInv(cfg, s, c, stage);
    }
  }

  lemma FailKeepsInv(cfg: Config, s: State, c: ConsumerId, acked: bool, executed: bool)
    requires Inv(cfg, s) && Enabled(cfg, s, Fail(c, acked, executed))
    ensures Inv(cfg, AfterFail(s, c, acked, executed))
  {
    hide CommittedOk, PositionsOk, ReadsOk, OriginOk, LettersOk, Settled, PushedEvent, MarksOk;
    var e := EventOf(s, c);
    var stage := if acked && TaskOf(s, c).stage.effect.permanent then DeadLettering else Deliver;
    assert ProcOk(cfg, s.log, FactsOf(s), s.dlq, s.procs[c]);
    GotoKeepsInv(cfg, s, c, stage);
    if executed {
      UnlockedFor(s, e);
      NoLockAfter(s, c, stage, e);
      ReleaseKeepsMarks(cfg, s.dedup[e], s.history[e], Released);
      RememberKeepsInv(cfg, Goto(s, c, stage), e, DedupRow(false, None), Released);
    }
  }

  lemma LetterKeepsInv(cfg: Config, s: State, d: DeadLetter)
    requires Inv(cfg, s) && LetterOk(cfg, s.log, d)
    ensures Inv(cfg, s.(dlq := s.dlq + [d]))
  {
    var t := s.(dlq := s.dlq + [d]);
    EverythingGrows(cfg, s, t.log, FactsOf(t), t.dlq);
    LocksCarryOver(s, t);
  }

  lemma DeadLetterKeepsInv(cfg: Config, s: State, c: ConsumerId, acked: bool, delivered: bool)
    requires Inv(cfg, s) && Enabled(cfg, s, Step.DeadLetter(c, acked, delivered))
    ensures Inv(cfg, AfterDeadLetter(cfg, s, c, acked, delivered))
  {
    hide CommittedOk, ReadsOk, DoneOk, HistoryOk, OriginOk, LettersOk, PositionsOk;
    var p, o, rec := TaskOf(s, c).p, TaskOf(s, c).o, RecordOf(s, c);
    var t := if delivered then s.(dlq := s.dlq + [LetterOf(cfg, p, o, rec)]) else s;
    if delivered {
      assert ProcOk(cfg, s.log, FactsOf(s), s.dlq, s.procs[c]);
      LetterKeepsInv(cfg, s, LetterOf(cfg, p, o, rec));
      assert Preserves(cfg, t.dlq[|s.dlq|], p, o, rec);
    }
    if acked {
      GotoKeepsInv(cfg, t, c, Settling);
    } else {
      ExitKeepsInv(cfg, t, c);
    }
  }

  lemma CommitKeepsInv(cfg: Config, s: State, c: ConsumerId, acked: bool, executed: bool)
    requires Inv(cfg, s) && Enabled(cfg, s, Commit(c, acked, executed))
    ensures Inv(cfg, AfterCommit(s, c, acked, executed))
  {
    hide CommittedOk, ReadsOk, DoneOk, HistoryOk, OriginOk, LettersOk, Settled;
    var p, o, proc := TaskOf(s, c).p, TaskOf(s, c).o, s.procs[c];
    assert ProcOk(cfg, s.log, FactsOf(s), s.dlq, proc);
    assert SettledBelow(cfg, s.log, FactsOf(s), s.dlq, p, o + 1);
    var t := if executed then s.(committed := s.committed[p := o + 1]) else s;
    if executed { OffsetKeepsInv(cfg, s, p, o + 1); }
    if acked {
      ProcKeepsInv(cfg, t, c, Process(proc.positions[p := o + 1], None));
    } else {
      ExitKeepsInv(cfg, t, c);
    }
  }

  lemma OffsetKeepsInv(cfg: Config, s: State, p: Part, n: nat)
    requires Inv(cfg, s) && SettledBelow(cfg, s.log, FactsOf(s), s.dlq, p, n)
    ensures Inv(cfg, s.(committed := s.committed[p := n]))
  {
    LocksCarryOver(s, s.(committed := s.committed[p := n]));
  }

  lemma AssignKeepsInv(cfg: Config, s: State, c: ConsumerId, p: Part)
    requires Inv(cfg, s) && Enabled(cfg, s, Assign(c, p))
    ensures Inv(cfg, Assigned(s, c, p))
  {
    var positions := if c in s.procs then s.procs[c].positions else map[];
    if c in s.procs { assert ProcOk(cfg, s.log, FactsOf(s), s.dlq, s.procs[c]); }
    ProcKeepsInv(cfg, s, c, Process(positions[p := CommittedOf(s, p)], None));
  }

  lemma StepKeepsInv(cfg: Config, s: State, step: Step)
    requires Inv(cfg, s) && Enabled(cfg, s, step)
    ensures Inv(cfg, Apply(cfg, s, step))
  {
    hide CommittedOk, ProcsOk, ReadsOk, DoneOk, HistoryOk, OriginOk, LettersOk, Grant, AfterPublish, AfterDone,
      AfterFail, AfterDeadLetter, AfterCommit, Assigned, Goto, Exit;
    match step
    case Tick(d) => LocksCarryOver(s, Apply(cfg, s, step));
    case Append(p, rec) => AppendKeepsInv(cfg, s, p, rec);
    case Assign(c, p) => AssignKeepsInv(cfg, s, c, p);
    case Revoke(c, p) => RevokeKeepsInv(cfg, s, c, p);
    case Fetch(c, p) => FetchKeepsInv(cfg, s, c, p);
    case Reject(c) => GotoKeepsInv(cfg, s, c, DeadLettering);
    case BeginSelect(c) => SelectKeepsInv(cfg, s, c);
    case BeginDone(c) => BeginDoneKeepsInv(cfg, s, c);
    case BeginGrant(c, clock, stamp, acked) => GrantKeepsInv(cfg, s, c, clock, stamp, acked);
    case BeginError(c) => GotoKeepsInv(cfg, s, c, Deliver);
    case Decode(c) => DecodeKeepsInv(cfg, s, c);
    case Publish(c, acked, delivered) => PublishKeepsInv(cfg, s, c, acked, delivered);
    case Done(c, acked, executed) => DoneKeepsInv(cfg, s, c, acked, executed);
    case Fail(c, acked, executed) => FailKeepsInv(cfg, s, c, acked, executed);
    case DeadLetter(c, acked, delivered) => DeadLetterKeepsInv(cfg, s, c, acked, delivered);
    case Commit(c, acked, executed) => CommitKeepsInv(cfg, s, c, acked, executed);
    case Crash(c) => ExitKeepsInv(cfg, s, c);
  }

  lemma RevokeKeepsInv(cfg: Config, s: State, c: ConsumerId, p: Part)
    requires Inv(cfg, s) && Enabled(cfg, s, Revoke(c, p))
    ensures Inv(cfg, Apply(cfg, s, Revoke(c, p)))
  {
    assert ProcOk(cfg, s.log, FactsOf(s), s.dlq, s.procs[c]);
    ProcKeepsInv(cfg, s, c, s.procs[c].(positions := s.procs[c].positions - {p}));
  }

  lemma FetchKeepsInv(cfg: Config, s: State, c: ConsumerId, p: Part)
    requires Inv(cfg, s) && Enabled(cfg, s, Fetch(c, p))
    ensures Inv(cfg, Apply(cfg, s, Fetch(c, p)))
  {
    assert ProcOk(cfg, s.log, FactsOf(s), s.dlq, s.procs[c]);
    ProcKeepsInv(cfg, s, c, s.procs[c].(work := Some(Task(p, s.procs[c].positions[p], Deliver))));
  }

  lemma BeginDoneKeepsInv(cfg: Config, s: State, c: ConsumerId)
    requires Inv(cfg, s) && Enabled(cfg, s, BeginDone(c))
    ensures Inv(cfg, Apply(cfg, s, BeginDone(c)))
  {
    assert LocksKey(s, c, EventOf(s, c));
    GotoKeepsInv(cfg, s, c, Settling);
  }

  lemma DecodeKeepsInv(cfg: Config, s: State, c: ConsumerId)
    requires Inv(cfg, s) && Enabled(cfg, s, Decode(c))
    ensures Inv(cfg, Apply(cfg, s, Decode(c)))
  {
    assert ProcOk(cfg, s.log, FactsOf(s), s.dlq, s.procs[c]);
    GotoKeepsInv(cfg, s, c, Active(TaskOf(s, c).stage.since, Failing(true)));
  }

  lemma {:induction false} RunKeepsInv(cfg: Config, run: seq<Step>)
    requires Run(cfg, run).Some?
    ensures Inv(cfg, Run(cfg, run).value)
  {
    if run != [] {
      var before := run[..|run| - 1];
      RunKeepsInv(cfg, before);
      StepKeepsInv(cfg, Run(cfg, before).value, run[|run| - 1]);
    }
  }

  lemma ReachableInv(cfg: Config, s: State)
    requires Reachable(cfg, s)
    ensures Inv(cfg, s)
  {
    var run :| Run(cfg, run) == Some(s);
    RunKeepsInv(cfg, run);
  }

  lemma ReachableStep(cfg: Config, s: State, step: Step)
    requires Reachable(cfg, s) && Enabled(cfg, s, step)
    ensures Reachable(cfg, Apply(cfg, s, step))
  {
    var run :| Run(cfg, run) == Some(s);
    assert (run + [step])[..|run|] == run;
    assert Run(cfg, run + [step]) == Some(Apply(cfg, s, step));
  }
}
