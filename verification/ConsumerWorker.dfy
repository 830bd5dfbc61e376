/**
 The gift consumer as code: eventdedup.Store, gift.ConsumerHandler.Handle and mq.Consumer.Run executed by one
 process while any number of others take steps between its remote calls. Every execution is a run of the step
 system of module Consumer. Where the context ends a wait, a budget parameter stands for it.
 */
module ConsumerWorker {
  import opened Basics
  import opened Events
  import opened DeadLetters
  import opened Consumer
  import opened ConsumerSafety

  /** Handle's error: nil, one wrapped by mq.Permanent, or any other. */
  datatype HandleError = NoError | PermanentError | RetryableError

  datatype BeginResult = AlreadyDone | Began | Busy | Failed

  datatype RecordResult = Committed | DeadLetterFailed | CommitFailed | Cancelled

  class Cluster {
    const cfg: Config
    var st: State
    ghost var run: seq<Step>

    constructor (cfg: Config)
      ensures Valid() && this.cfg == cfg && st == Init()
    {
      this.cfg, st, run := cfg, Init(), [];
    }

    ghost predicate Valid()
      reads this
    {
      Run(cfg, run) == Some(st)
    }

    /** Process c has these positions and works on record rec at offset o of p, in the given stage. */
    ghost predicate At(c: ConsumerId, positions: map<Part, nat>, p: Part, o: nat, rec: Record, stage: Stage)
      reads this
    {
      && Valid() && c in st.procs && st.procs[c] == Process(positions, Some(Task(p, o, stage)))
      && o < |LogOf(st.log, p)| && LogOf(st.log, p)[o] == rec
    }

    method Do(step: Step)
      requires Valid() && Enabled(cfg, st, step)
      modifies this
      ensures Valid() && run == old(run) + [step] && st == Apply(cfg, old(st), step)
    {
      assert (run + [step])[..|run|] == run;
      st, run := Apply(cfg, st, step), run + [step];
    }

    /** Whatever the other processes, the producers and the clock do before c's next call. */
    method Others(c: ConsumerId)
      requires Valid()
      modifies this
      ensures Valid() && old(run) <= run && old(st.now) <= st.now
      ensures c in st.procs <==> c in old(st.procs)
      ensures c in st.procs ==> st.procs[c] == old(st.procs[c])
    {
    }

    /** Others, as seen by a process in the middle of a record. */
    method Wait(c: ConsumerId, ghost positions: map<Part, nat>, ghost p: Part, ghost o: nat, ghost rec: Record, ghost stage: Stage)
      requires At(c, positions, p, o, rec, stage)
      modifies this
      ensures At(c, positions, p, o, rec, stage) && old(run) <= run && old(st.now) <= st.now
      ensures old(st.dedup).Keys <= st.dedup.Keys
    {
      ghost var before := run;
      Others(c);
      ExtensionGrows(cfg, before, run);
      assert LogOf(old(st.log), p) <= LogOf(st.log, p);
    }
  }

  lemma {:induction false} ExtensionGrows(cfg: Config, run: seq<Step>, longer: seq<Step>)
    requires run <= longer && Consumer.Run(cfg, longer).Some?
    ensures Consumer.Run(cfg, run).Some?
    ensures StateGrown(Consumer.Run(cfg, run).value, Consumer.Run(cfg, longer).value)
    ensures Consumer.Run(cfg, run).value.dedup.Keys <= Consumer.Run(cfg, longer).value.dedup.Keys
    decreases |longer|
  {
    hide Apply, Enabled, StateGrown, Inv;
    if run != longer {
      var before := longer[..|longer| - 1];
      assert run <= before;
      ExtensionGrows(cfg, run, before);
      RunKeepsInv(cfg, before);
      StepGrows(cfg, Consumer.Run(cfg, before).value, longer[|longer| - 1]);
      StepKeepsRows(cfg, Consumer.Run(cfg, before).value, longer[|longer| - 1]);
      GrownFurther(Consumer.Run(cfg, run).value, Consumer.Run(cfg, before).value, Consumer.Run(cfg, longer).value);
    } else {
      GrownSame(Consumer.Run(cfg, run).value);
    }
  }

  lemma GrownSame(s: State)
    ensures StateGrown(s, s)
  {
  }

  lemma GrownFurther(s: State, t: State, u: State)
    requires StateGrown(s, t) && StateGrown(t, u)
    ensures StateGrown(s, u)
  {
    forall p: Part ensures LogOf(s.log, p) <= LogOf(u.log, p) {
      assert LogOf(s.log, p) <= LogOf(t.log, p) && LogOf(t.log, p) <= LogOf(u.log, p);
    }
  }

  /** Dedup rows are never deleted. */
  lemma StepKeepsRows(cfg: Config, s: State, step: Step)
    requires Enabled(cfg, s, step)
    ensures s.dedup.Keys <= Apply(cfg, s, step).dedup.Keys
  {
    hide KeyLocked, Admitted, DecodeGift, LetterOf, PushOf;
  }

  ghost predicate SettledAt(cfg: Config, s: State, p: Part, o: nat) {
    o < |LogOf(s.log, p)| && Settled(cfg, FactsOf(s), s.dlq, p, o, LogOf(s.log, p)[o])
  }

  lemma SettledAtGrows(cfg: Config, s: State, t: State)
    requires StateGrown(s, t)
    ensures forall p: Part, o: nat :: SettledAt(cfg, s, p, o) ==> SettledAt(cfg, t, p, o)
  {
    forall p: Part, o: nat | SettledAt(cfg, s, p, o) ensures SettledAt(cfg, t, p, o) {
      assert LogOf(s.log, p) <= LogOf(t.log, p);
      SettledGrows(cfg, s.log, FactsOf(s), s.dlq, t.log, FactsOf(t), t.dlq, p, o, LogOf(s.log, p)[o]);
    }
  }

  lemma DoneWasPushed(cfg: Config, run: seq<Step>, s: State, c: ConsumerId)
    requires Consumer.Run(cfg, run) == Some(s) && Enabled(cfg, s, BeginDone(c))
    ensures PushedEvent(s.pushed, EventOf(s, c))
  {
    RunKeepsInv(cfg, run);
    assert LocksKey(s, c, EventOf(s, c));
  }

  /** A finished row stands for a push. */
  lemma FinishedWasPushed(cfg: Config, run: seq<Step>, s: State, e: string)
    requires Consumer.Run(cfg, run) == Some(s) && Row(s, e).Some? && Row(s, e).value.done
    ensures PushedEvent(s.pushed, e)
  {
    RunKeepsInv(cfg, run);
  }

  /** A process outside Begin does not release a lock by moving on. */
  lemma LockStays(s: State, c: ConsumerId, stage: Stage, e: string)
    requires Working(s, c) && !TaskOf(s, c).stage.Reading? && KeyLocked(s, e)
    ensures KeyLocked(Goto(s, c, stage), e)
  {
    var d :| d in s.procs && LocksKey(s, d, e);
    assert LocksKey(Goto(s, c, stage), d, e);
  }

  /** internal/eventdedup/store.go */
  class Store {
    const db: Cluster

    constructor (db: Cluster)
      ensures this.db == db
    {
      this.db := db;
    }

    /** The grant is written under the lock Begin's SELECT took, or as a new row if there was none. */
    method Begin(c: ConsumerId, ghost positions: map<Part, nat>, ghost p: Part, ghost o: nat, rec: Record, works: bool)
      returns (r: BeginResult, ghost since: Time)
      requires db.At(c, positions, p, o, rec, Deliver) && Admitted(rec).Some?
      modifies db
      ensures old(db.run) <= db.run
      ensures db.At(c, positions, p, o, rec,
        if r == AlreadyDone then Settling else if r == Began then Active(since, Fresh) else Deliver)
      ensures r == Began ==> since <= db.st.now && Row(db.st, Admitted(rec).value) == Some(DedupRow(false, Some(since)))
      ensures r == AlreadyDone ==> PushedEvent(db.st.pushed, Admitted(rec).value)
      ensures r == Busy ==> HeldByOther(db.cfg, db.st, Admitted(rec).value)
      ensures r == Failed && works ==>
        KeyLocked(db.st, Admitted(rec).value) || Row(db.st, Admitted(rec).value).Some?
    {
      hide Run, Grant, AfterPublish, AfterDone, AfterFail, AfterDeadLetter, AfterCommit, Assigned, PushedEvent,
        DecodeGift, KeyLocked;
      since := 0;
      db.Wait(c, positions, p, o, rec, Deliver);
      var broken: bool := *;
      if (!works && broken) || KeyLocked(db.st, Admitted(rec).value) { return Failed, since; }
      var seen := Row(db.st, Admitted(rec).value);
      db.Do(BeginSelect(c));
      broken := *;
      if !works && broken {
        db.Do(BeginError(c));
        return Failed, since;
      }
      r, since := Resolve(c, positions, p, o, rec, seen, works);
    }

    /** What Begin does with the row its SELECT found and locked. */
    method Resolve(c: ConsumerId, ghost positions: map<Part, nat>, ghost p: Part, ghost o: nat, rec: Record,
                   seen: Option<DedupRow>, works: bool)
      returns (r: BeginResult, ghost since: Time)
      requires db.At(c, positions, p, o, rec, Reading(seen)) && Admitted(rec).Some? && Row(db.st, Admitted(rec).value) == seen
      modifies db
      ensures old(db.run) <= db.run
      ensures db.At(c, positions, p, o, rec,
        if r == AlreadyDone then Settling else if r == Began then Active(since, Fresh) else Deliver)
      ensures r == Began ==> since <= db.st.now && Row(db.st, Admitted(rec).value) == Some(DedupRow(false, Some(since)))
      ensures r == AlreadyDone ==> PushedEvent(db.st.pushed, Admitted(rec).value)
      ensures r == AlreadyDone <==> seen.Some? && seen.value.done
      ensures r == Busy ==> HeldByOther(db.cfg, db.st, Admitted(rec).value)
      ensures r == Failed && works ==>
        KeyLocked(db.st, Admitted(rec).value) || Row(db.st, Admitted(rec).value).Some?
    {
      hide Run, Grant, AfterPublish, AfterDone, AfterFail, AfterDeadLetter, AfterCommit, Assigned, PushedEvent,
        DecodeGift, KeyLocked;
      since := 0;
      if seen == None {
        r, since := Insert(c, positions, p, o, rec, works);
      } else if seen.value.done {
        DoneWasPushed(db.cfg, db.run, db.st, c);
        db.Do(BeginDone(c));
        r := AlreadyDone;
      } else {
        r, since := Update(c, positions, p, o, rec, seen.value, works);
      }
    }

    /** Another process holds the event: the row is locked and its lease not over. */
    static predicate HeldByOther(cfg: Config, s: State, e: string) {
      e in s.dedup && !s.dedup[e].done && s.dedup[e].lockedAt.Some? && s.now < s.dedup[e].lockedAt.value + cfg.lease
    }

    method Insert(c: ConsumerId, ghost positions: map<Part, nat>, ghost p: Part, ghost o: nat, rec: Record, works: bool)
      returns (r: BeginResult, ghost since: Time)
      requires db.At(c, positions, p, o, rec, Reading(None)) && Admitted(rec).Some?
      modifies db
      ensures old(db.run) <= db.run && (r == Began || r == Failed)
      ensures r == Failed && works ==> Row(db.st, Admitted(rec).value).Some?
      ensures db.At(c, positions, p, o, rec, if r == Began then Active(since, Fresh) else Deliver)
      ensures r == Began ==> since <= db.st.now && Row(db.st, Admitted(rec).value) == Some(DedupRow(false, Some(since)))
    {
      hide Run, AfterPublish, AfterDone, AfterFail, AfterDeadLetter, AfterCommit, Assigned, DecodeGift;
      since := 0;
      db.Wait(c, positions, p, o, rec, Reading(None));
      if Row(db.st, Admitted(rec).value) != None {
        db.Do(BeginError(c));
        return Failed, since;
      }
      var acked: bool := *;
      since := db.st.now;
      db.Do(BeginGrant(c, db.st.now, db.st.now, works || acked));
      r := if works || acked then Began else Failed;
    }

    method Update(c: ConsumerId, ghost positions: map<Part, nat>, ghost p: Part, ghost o: nat, rec: Record, seen: DedupRow,
                  works: bool)
      returns (r: BeginResult, ghost since: Time)
      requires db.At(c, positions, p, o, rec, Reading(Some(seen))) && Admitted(rec).Some? && !seen.done
      modifies db
      requires Row(db.st, Admitted(rec).value) == Some(seen)
      ensures old(db.run) <= db.run && (r == Began || r == Failed || r == Busy) && (r == Failed ==> !works)
      ensures r == Busy ==> HeldByOther(db.cfg, db.st, Admitted(rec).value)
      ensures db.At(c, positions, p, o, rec, if r == Began then Active(since, Fresh) else Deliver)
      ensures r == Began ==> since <= db.st.now && Row(db.st, Admitted(rec).value) == Some(DedupRow(false, Some(since)))
    {
      hide Run, AfterPublish, AfterDone, AfterFail, AfterDeadLetter, AfterCommit, Assigned, DecodeGift;
      since := 0;
      var clock := db.st.now;
      if !Free(db.cfg, seen, clock) {
        db.Do(BeginError(c));
        return Busy, since;
      }
      db.Wait(c, positions, p, o, rec, Reading(Some(seen)));
      var acked: bool := *;
      since := db.st.now;
      db.Do(BeginGrant(c, clock, db.st.now, works || acked));
      r := if works || acked then Began else Failed;
    }

    /** ok is the nil error; the update may have happened although it is not reported. */
    method Done(c: ConsumerId, ghost positions: map<Part, nat>, ghost p: Part, ghost o: nat, rec: Record, ghost since: Time,
                works: bool)
      returns (ok: bool)
      requires db.At(c, positions, p, o, rec, Active(since, Pushed)) && Admitted(rec).Some?
      modifies db
      ensures old(db.run) <= db.run && db.At(c, positions, p, o, rec, if ok then Settling else Deliver)
      ensures ok ==> Row(db.st, Admitted(rec).value) == Some(DedupRow(true, None))
      ensures works && !ok ==> old(Row(db.st, Admitted(rec).value)).None? || KeyLocked(db.st, Admitted(rec).value)
    {
      hide Run, Grant, AfterPublish, AfterFail, AfterDeadLetter, AfterCommit, Assigned, DecodeGift;
      db.Wait(c, positions, p, o, rec, Active(since, Pushed));
      var executed: bool := *;
      ok := *;
      executed := (works || executed) && Admitted(rec).value in db.st.dedup && !KeyLocked(db.st, Admitted(rec).value);
      ok := (works || ok) && executed;
      ghost var before := db.st;
      db.Do(Step.Done(c, ok, executed));
      if !executed && KeyLocked(before, Admitted(rec).value) { LockStays(before, c, Deliver, Admitted(rec).value); }
    }

    method Fail(c: ConsumerId, ghost positions: map<Part, nat>, ghost p: Part, ghost o: nat, rec: Record,
                ghost since: Time, permanent: bool)
      returns (ok: bool)
      requires db.At(c, positions, p, o, rec, Active(since, Failing(permanent))) && Admitted(rec).Some?
      modifies db
      ensures old(db.run) <= db.run && db.At(c, positions, p, o, rec, if ok && permanent then DeadLettering else Deliver)
      ensures ok ==> Row(db.st, Admitted(rec).value) == Some(DedupRow(false, None))
    {
      hide Run, Grant, AfterPublish, AfterDone, AfterDeadLetter, AfterCommit, Assigned, DecodeGift;
      db.Wait(c, positions, p, o, rec, Active(since, Failing(permanent)));
      var e := Admitted(rec).value;
      var executed: bool := *;
      ok := *;
      executed := executed && e in db.st.dedup && !db.st.dedup[e].done && !KeyLocked(db.st, e);
      ok := ok && executed;
      db.Do(Step.Fail(c, ok, executed));
    }
  }

  /** internal/gift/consumer.go */
  class ConsumerHandler {
    const dedup: Store

    constructor (dedup: Store)
      ensures this.dedup == dedup
    {
      this.dedup := dedup;
    }

    static function StageAfter(err: HandleError): Stage {
      match err
      case NoError => Settling
      case PermanentError => DeadLettering
      case RetryableError => Deliver
    }

    /** Publish the granted event and record it; any failure releases the lock, if it can, and asks for a retry. */
    method PublishGift(c: ConsumerId, ghost positions: map<Part, nat>, ghost p: Part, ghost o: nat, rec: Record,
                       ghost since: Time, publishes: bool, works: bool)
      returns (err: HandleError)
      requires dedup.db.At(c, positions, p, o, rec, Active(since, Fresh)) && Publishable(rec)
      modifies dedup.db
      ensures old(dedup.db.run) <= dedup.db.run && err != PermanentError
      ensures dedup.db.At(c, positions, p, o, rec, StageAfter(err))
      ensures err == NoError ==> PushedEvent(dedup.db.st.pushed, Admitted(rec).value)
      ensures err == NoError ==> Row(dedup.db.st, Admitted(rec).value) == Some(DedupRow(true, None)) && publishes
      ensures publishes && works && err != NoError ==>
        old(Row(dedup.db.st, Admitted(rec).value)).None? || KeyLocked(dedup.db.st, Admitted(rec).value)
    {
      hide Run, Grant, AfterDone, AfterFail, AfterDeadLetter, AfterCommit, Assigned, PushedEvent, KeyLocked;
      var db := dedup.db;
      db.Wait(c, positions, p, o, rec, Active(since, Fresh));
      var delivered: bool := *;
      db.Do(Publish(c, publishes, publishes || delivered));
      if !publishes {
        var _ := dedup.Fail(c, positions, p, o, rec, since, false);
        return RetryableError;
      }
      var finished := dedup.Done(c, positions, p, o, rec, since, works);
      if finished { FinishedWasPushed(db.cfg, db.run, db.st, Admitted(rec).value); }
      return if finished then NoError else RetryableError;
    }

    /** nil only for a handled event, a permanent error only for a record that must not be retried. */
    method Handle(c: ConsumerId, ghost positions: map<Part, nat>, ghost p: Part, ghost o: nat, rec: Record,
                  publishes: bool, works: bool)
      returns (err: HandleError, ghost begun: BeginResult)
      requires dedup.db.At(c, positions, p, o, rec, Deliver)
      modifies dedup.db
      ensures old(dedup.db.run) <= dedup.db.run
      ensures dedup.db.At(c, positions, p, o, rec, StageAfter(err))
      ensures Admitted(rec) == None ==> err == PermanentError
      ensures err == PermanentError ==> !Publishable(rec)
      ensures err == NoError ==> Admitted(rec).Some? && PushedEvent(dedup.db.st.pushed, Admitted(rec).value)
      ensures Admitted(rec).Some? && begun == AlreadyDone ==> err == NoError
      ensures Admitted(rec).Some? && begun == Busy ==> Store.HeldByOther(dedup.db.cfg, dedup.db.st, Admitted(rec).value)
      ensures Admitted(rec).Some? && begun == Failed && works ==>
        KeyLocked(dedup.db.st, Admitted(rec).value) || Row(dedup.db.st, Admitted(rec).value).Some?
      ensures Publishable(rec) && begun == Began && publishes && works ==>
        err == NoError || KeyLocked(dedup.db.st, Admitted(rec).value)
    {
      hide Run, Grant, AfterPublish, AfterDone, AfterFail, AfterDeadLetter, AfterCommit, Assigned, PushedEvent, KeyLocked;
      begun := Failed;
      if Admitted(rec) == None {
        dedup.db.Do(Reject(c));
        return PermanentError, begun;
      }
      var result, since := dedup.Begin(c, positions, p, o, rec, works);
      begun := result;
      if result == AlreadyDone { return NoError, begun; }
      if result != Began { return RetryableError, begun; }
      if DecodeGift(rec) == None {
        dedup.db.Do(Decode(c));
        var released := dedup.Fail(c, positions, p, o, rec, since, true);
        return if released then PermanentError else RetryableError, begun;
      }
      err := PublishGift(c, positions, p, o, rec, since, publishes, works);
    }
  }

  /** internal/mq/kafka.go */
  class GroupConsumer {
    const handler: ConsumerHandler

    constructor (handler: ConsumerHandler)
      ensures this.handler == handler
    {
      this.handler := handler;
    }

    ghost predicate Free(c: ConsumerId)
      reads handler.dedup.db
    {
      handler.dedup.db.Valid() && c in handler.dedup.db.st.procs && handler.dedup.db.st.procs[c].work == None
    }

    /** Handles one record until it is handled, is permanently rejected, or the context ends. */
    method Retry(c: ConsumerId, ghost positions: map<Part, nat>, ghost p: Part, ghost o: nat, rec: Record, budget: nat)
      returns (err: HandleError, ghost tries: nat)
      requires handler.dedup.db.At(c, positions, p, o, rec, Deliver)
      modifies handler.dedup.db
      ensures old(handler.dedup.db.run) <= handler.dedup.db.run
      ensures 1 <= tries <= budget + 1 && (err == RetryableError ==> tries == budget + 1)
      ensures err == PermanentError ==> !Publishable(rec)
      ensures Admitted(rec).None? ==> err == PermanentError && tries == 1
      ensures handler.dedup.db.At(c, positions, p, o, rec, ConsumerHandler.StageAfter(err))
    {
      var db := handler.dedup.db;
      var left := budget;
      var publishes: bool, works: bool := *, *;
      ghost var begun;
      err, begun := handler.Handle(c, positions, p, o, rec, publishes, works);
      tries := 1;
      while err == RetryableError && left > 0
        invariant 0 <= left <= budget && tries == budget - left + 1 && (err == PermanentError ==> !Publishable(rec))
        invariant Admitted(rec).None? ==> err == PermanentError && tries == 1
        invariant old(db.run) <= db.run
        invariant db.At(c, positions, p, o, rec, ConsumerHandler.StageAfter(err))
        decreases left
      {
        db.Wait(c, positions, p, o, rec, Deliver);
        publishes, works := *, *;
        err, begun := handler.Handle(c, positions, p, o, rec, publishes, works);
        left, tries := left - 1, tries + 1;
      }
    }

    /** A dead letter that cannot be written ends Run. */
    method WriteDeadLetter(c: ConsumerId, ghost positions: map<Part, nat>, p: Part, o: nat, rec: Record, writes: bool)
      returns (ok: bool)
      requires handler.dedup.db.At(c, positions, p, o, rec, DeadLettering)
      modifies handler.dedup.db
      ensures old(handler.dedup.db.run) <= handler.dedup.db.run && handler.dedup.db.Valid()
      ensures ok ==> handler.dedup.db.At(c, positions, p, o, rec, Settling)
      ensures !ok ==> c !in handler.dedup.db.st.procs
      ensures ok ==> InDlq(handler.dedup.db.cfg, handler.dedup.db.st.dlq, p, o, rec)
      ensures ok <==> writes && ValidSource(handler.dedup.db.cfg.topic, handler.dedup.db.cfg.group) && rec.value != Null
    {
      hide Consumer.Run, Grant, AfterPublish, AfterDone, AfterFail, AfterCommit, Assigned, Inv;
      var db := handler.dedup.db;
      db.Wait(c, positions, p, o, rec, DeadLettering);
      LetterValidIff(db.cfg, p, o, rec);
      var delivered: bool := *;
      var valid := Valid(LetterOf(db.cfg, p, o, rec));
      ok := writes && valid;
      db.Do(Step.DeadLetter(c, ok, ok || (delivered && valid)));
      if ok { assert Preserves(db.cfg, db.st.dlq[|db.st.dlq| - 1], p, o, rec); }
    }

    /** The body of Run's record loop. Unless it commits, the process ends. */
    method Process(c: ConsumerId, ghost positions: map<Part, nat>, p: Part, o: nat, rec: Record, budget: nat,
                   writes: bool, commits: bool)
      returns (r: RecordResult, ghost err: HandleError)
      requires handler.dedup.db.At(c, positions, p, o, rec, Deliver)
      modifies handler.dedup.db
      ensures handler.dedup.db.Valid() && old(handler.dedup.db.run) <= handler.dedup.db.run
      ensures r == Committed ==>
        && c in handler.dedup.db.st.procs
        && handler.dedup.db.st.procs[c] == Consumer.Process(positions[p := o + 1], None)
        && CommittedOf(handler.dedup.db.st, p) == o + 1
        && SettledAt(handler.dedup.db.cfg, handler.dedup.db.st, p, o)
      ensures r != Committed ==> c !in handler.dedup.db.st.procs
      ensures r == Cancelled <==> err == RetryableError
      ensures r == DeadLetterFailed <==> err == PermanentError && !(writes && Deliverable(handler.dedup.db.cfg, rec))
      ensures r == CommitFailed ==> !commits
      ensures Admitted(rec).None? ==> err == PermanentError
    {
      hide Consumer.Run, Grant, AfterPublish, AfterDone, AfterFail, AfterDeadLetter, Assigned, InDlq;
      var db := handler.dedup.db;
      var answer, tries := Retry(c, positions, p, o, rec, budget);
      err := answer;
      if answer == RetryableError {
        db.Do(Crash(c));
        return Cancelled, err;
      }
      if answer == PermanentError {
        var ok := WriteDeadLetter(c, positions, p, o, rec, writes);
        if !ok { return DeadLetterFailed, err; }
      }
      db.Wait(c, positions, p, o, rec, Settling);
      var executed: bool := *;
      db.Do(Commit(c, commits, commits || executed));
      if commits { CommittedIsSettled(db.cfg, db.run, db.st, p, o); }
      return if commits then Committed else CommitFailed, err;
    }

    /** Fetches and processes the next record of some assigned partition, if there is one. */
    method Next(c: ConsumerId, budget: nat) returns (found: bool, p: Part, o: nat, r: RecordResult)
      requires Free(c)
      modifies handler.dedup.db
      ensures handler.dedup.db.Valid() && old(handler.dedup.db.run) <= handler.dedup.db.run
      ensures if r == Committed then Free(c) else c !in handler.dedup.db.st.procs
      ensures found && r == Committed ==> SettledAt(handler.dedup.db.cfg, handler.dedup.db.st, p, o)
    {
      var db := handler.dedup.db;
      db.Others(c);
      found, p, o, r := false, 0, 0, Committed;
      var positions := db.st.procs[c].positions;
      var ready := set q | q in positions && positions[q] < |LogOf(db.st.log, q)|;
      if ready != {} {
        p :| p in ready;
        found, o := true, positions[p];
        db.Do(Fetch(c, p));
        var writes: bool, commits: bool := *, *;
        ghost var err;
        r, err := Process(c, positions, p, o, LogOf(db.st.log, p)[o], budget, writes, commits);
      }
    }

    /**
     Rounds of polling, each over at most 100 records. Every record Run gets past is settled: its event is on
     the room stream or the record is in the DLQ.
     */
    method Run(c: ConsumerId, rounds: nat, budget: nat) returns (passed: seq<(Part, nat)>, last: RecordResult)
      requires Free(c)
      modifies handler.dedup.db
      ensures handler.dedup.db.Valid() && old(handler.dedup.db.run) <= handler.dedup.db.run
      ensures forall k :: 0 <= k < |passed| ==>
        SettledAt(handler.dedup.db.cfg, handler.dedup.db.st, passed[k].0, passed[k].1)
      ensures if last == Committed then Free(c) else c !in handler.dedup.db.st.procs
    {
      var db := handler.dedup.db;
      passed, last := [], Committed;
      var round, fetched := 0, 0;
      while round < rounds
        invariant Free(c) && old(db.run) <= db.run && last == Committed && fetched <= 100
        invariant forall k :: 0 <= k < |passed| ==> SettledAt(db.cfg, db.st, passed[k].0, passed[k].1)
        decreases rounds - round, 100 - fetched
      {
        ghost var before := db.run;
        var found, p, o := false, 0, 0;
        if fetched < 100 { found, p, o, last := Next(c, budget); }
        if !found && last == Committed { Rebalance(c); }
        ExtensionGrows(db.cfg, before, db.run);
        SettledAtGrows(db.cfg, Consumer.Run(db.cfg, before).value, db.st);
        if last != Committed { return; }
        if found {
          passed, fetched := passed + [(p, o)], fetched + 1;
        } else {
          round, fetched := round + 1, 0;
        }
      }
    }

    /** Partitions come and go only between polls. */
    method Rebalance(c: ConsumerId)
      requires Free(c)
      modifies handler.dedup.db
      ensures Free(c) && old(handler.dedup.db.run) <= handler.dedup.db.run
    {
      var db := handler.dedup.db;
      var p: nat := *;
      var gained: bool := *;
      db.Others(c);
      if gained { db.Do(Assign(c, p)); } else { db.Do(Revoke(c, p)); }
    }
  }

  lemma CommittedIsSettled(cfg: Config, run: seq<Step>, s: State, p: Part, o: nat)
    requires Consumer.Run(cfg, run) == Some(s) && o < CommittedOf(s, p)
    ensures SettledAt(cfg, s, p, o)
  {
    RunKeepsInv(cfg, run);
  }
}
