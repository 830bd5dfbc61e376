/** Runs that get past a rejected record, and exactly when there is one. */
module ConsumerRuns {
  import opened Basics
  import opened Events
  import opened DeadLetters
  import opened Consumer
  import opened ConsumerSafety

  /** The state some steps lead to from `s`. */
  function Extend(cfg: Config, s: State, run: seq<Step>): Option<State> {
    if run == [] then Some(s)
    else match Extend(cfg, s, run[..|run| - 1])
      case None => None
      case Some(t) => if Enabled(cfg, t, run[|run| - 1]) then Some(Apply(cfg, t, run[|run| - 1])) else None
  }

  lemma {:induction false} ExtensionIsReachable(cfg: Config, s: State, run: seq<Step>)
    requires Reachable(cfg, s) && Extend(cfg, s, run).Some?
    ensures Reachable(cfg, Extend(cfg, s, run).value) && StateGrown(s, Extend(cfg, s, run).value)
  {
    if run != [] {
      var before := run[..|run| - 1];
      ExtensionIsReachable(cfg, s, before);
      var t := Extend(cfg, s, before).value;
      ReachableInv(cfg, t);
      ReachableStep(cfg, t, run[|run| - 1]);
      StepGrows(cfg, t, run[|run| - 1]);
    }
  }

  /** How often a handler publishes. */
  function Publishes(run: seq<Step>): nat {
    if run == [] then 0 else Publishes(run[..|run| - 1]) + if run[|run| - 1].Publish? then 1 else 0
  }

  /** From `s` these steps commit past the record at `o`; for a rejected record without finishing its event on the way. */
  ghost predicate Passes(cfg: Config, s: State, run: seq<Step>, p: Part, o: nat)
    requires o < |LogOf(s.log, p)|
  {
    Extend(cfg, s, run).Some? &&
    var t, rec := Extend(cfg, s, run).value, LogOf(s.log, p)[o];
    CommittedOf(t, p) > o && (FinishedIn(t, rec) ==> Publishable(rec) || FinishedIn(s, rec))
  }

  lemma PassedIsPassable(cfg: Config, s: State, run: seq<Step>, p: Part, o: nat)
    requires Reachable(cfg, s) && o < |LogOf(s.log, p)| && Passes(cfg, s, run, p, o)
    requires !Publishable(LogOf(s.log, p)[o])
    ensures Deliverable(cfg, LogOf(s.log, p)[o]) || FinishedIn(s, LogOf(s.log, p)[o])
  {
    ExtensionIsReachable(cfg, s, run);
    var t := Extend(cfg, s, run).value;
    assert LogOf(s.log, p) <= LogOf(t.log, p);
    if !Deliverable(cfg, LogOf(s.log, p)[o]) && !FinishedIn(t, LogOf(t.log, p)[o]) {
      UndeliverableBlocksPartition(cfg, t, p, o);
    }
  }

  lemma Grow(cfg: Config, s: State, run: seq<Step>, t: State, step: Step) returns (more: seq<Step>, u: State)
    requires Extend(cfg, s, run) == Some(t) && Enabled(cfg, t, step)
    ensures u == Apply(cfg, t, step) && Extend(cfg, s, more) == Some(u)
    ensures Publishes(more) == Publishes(run) + if step.Publish? then 1 else 0
  {
    more, u := run + [step], Apply(cfg, t, step);
    assert more[..|run|] == run;
  }

  /** Every process crashes; nothing else changes. */
  lemma CrashAll(cfg: Config, s: State, run: seq<Step>, t: State) returns (more: seq<Step>)
    requires Extend(cfg, s, run) == Some(t)
    ensures Extend(cfg, s, more) == Some(t.(procs := map[])) && Publishes(more) == Publishes(run)
    decreases |t.procs|
  {
    hide Extend;
    if c :| c in t.procs {
      var grown, u := Grow(cfg, s, run, t, Crash(c));
      assert u.procs.Keys == t.procs.Keys - {c};
      more := CrashAll(cfg, s, grown, u);
    } else {
      assert t.procs == map[];
      more := run;
    }
  }

  /** One fresh consumer has the record at the head of its partition in hand. */
  ghost predicate InHand(t: State, p: Part, o: nat, rec: Record, stage: Stage) {
    && t.procs == map[0 := Process(map[p := o], Some(Task(p, o, stage)))]
    && o < |LogOf(t.log, p)| && LogOf(t.log, p)[o] == rec
  }

  lemma InHandFacts(t: State, p: Part, o: nat, rec: Record, stage: Stage)
    requires InHand(t, p, o, rec, stage)
    ensures Working(t, 0) && TaskOf(t, 0) == Task(p, o, stage) && RecordOf(t, 0) == rec
    ensures !stage.Reading? ==> forall e :: !KeyLocked(t, e)
  {
    hide Admitted;
  }

  lemma GotoInHand(t: State, p: Part, o: nat, rec: Record, stage: Stage, next: Stage)
    requires InHand(t, p, o, rec, stage)
    ensures Working(t, 0) && InHand(Goto(t, 0, next), p, o, rec, next)
    ensures Goto(t, 0, next) == t.(procs := Goto(t, 0, next).procs)
  {
  }

  lemma TakeInHand(cfg: Config, s: State, p: Part, o: nat) returns (run: seq<Step>, t: State)
    requires o < |LogOf(s.log, p)| && CommittedOf(s, p) == o
    ensures Extend(cfg, s, run) == Some(t) && InHand(t, p, o, LogOf(s.log, p)[o], Deliver) && Publishes(run) == 0
    ensures t == s.(procs := t.procs)
  {
    hide Grant, AfterPublish, AfterDone, AfterFail, AfterDeadLetter, AfterCommit, Admitted;
    assert Extend(cfg, s, []) == Some(s);
    run := CrashAll(cfg, s, [], s);
    t := s.(procs := map[]);
    run, t := Grow(cfg, s, run, t, Assign(0, p));
    run, t := Grow(cfg, s, run, t, Fetch(0, p));
  }

  /** The last steps: the letter, if one is due, and the commit. */
  lemma SettleAndCommit(cfg: Config, s: State, run: seq<Step>, t: State, p: Part, o: nat, rec: Record, stage: Stage)
    returns (more: seq<Step>, u: State)
    requires Extend(cfg, s, run) == Some(t) && InHand(t, p, o, rec, stage)
    requires stage == Settling || (stage == DeadLettering && Deliverable(cfg, rec))
    ensures u.pushed == t.pushed
    ensures Publishes(more) == Publishes(run)
    ensures Extend(cfg, s, more) == Some(u) && CommittedOf(u, p) == o + 1 && u.dedup == t.dedup
  {
    hide Extend, Grant, AfterPublish, AfterDone, AfterFail, Assigned, Admitted, DecodeGift, Deliverable, LetterOf,
      Valid;
    more, u := run, t;
    if stage == DeadLettering {
      LetterValidIff(cfg, p, o, rec);
      more, u := Grow(cfg, s, more, u, Step.DeadLetter(0, true, true));
    }
    assert InHand(u, p, o, rec, Settling);
    more, u := Grow(cfg, s, more, u, Commit(0, true, true));
  }

  lemma PassRejected(cfg: Config, s: State, run: seq<Step>, t: State, p: Part, o: nat, rec: Record)
    returns (more: seq<Step>, u: State)
    requires Extend(cfg, s, run) == Some(t) && InHand(t, p, o, rec, Deliver) && Admitted(rec).None? && Deliverable(cfg, rec)
    ensures Publishes(more) == Publishes(run)
    ensures Extend(cfg, s, more) == Some(u) && CommittedOf(u, p) == o + 1 && u.dedup == t.dedup
  {
    hide Extend, Grant, AfterPublish, AfterDone, AfterFail, AfterDeadLetter, AfterCommit, Assigned, Admitted,
      Deliverable;
    more, u := Grow(cfg, s, run, t, Reject(0));
    more, u := SettleAndCommit(cfg, s, more, u, p, o, rec, DeadLettering);
  }

  lemma PassFinished(cfg: Config, s: State, run: seq<Step>, t: State, p: Part, o: nat, rec: Record)
    returns (more: seq<Step>, u: State)
    requires Extend(cfg, s, run) == Some(t) && InHand(t, p, o, rec, Deliver) && FinishedIn(t, rec)
    ensures u.pushed == t.pushed
    ensures Publishes(more) == Publishes(run)
    ensures Extend(cfg, s, more) == Some(u) && CommittedOf(u, p) == o + 1 && u.dedup == t.dedup
  {
    hide Extend, InHand, Working, TaskOf, RecordOf, Goto, Admitted, KeyLocked;
    more, u := SelectInHand(cfg, s, run, t, p, o, rec);
    InHandFacts(u, p, o, rec, Reading(Row(t, Admitted(rec).value)));
    GotoInHand(u, p, o, rec, Reading(Row(t, Admitted(rec).value)), Settling);
    more, u := Grow(cfg, s, more, u, BeginDone(0));
    more, u := SettleAndCommit(cfg, s, more, u, p, o, rec, Settling);
  }

  lemma SelectInHand(cfg: Config, s: State, run: seq<Step>, t: State, p: Part, o: nat, rec: Record)
    returns (more: seq<Step>, u: State)
    requires Extend(cfg, s, run) == Some(t) && InHand(t, p, o, rec, Deliver) && Admitted(rec).Some?
    ensures Publishes(more) == Publishes(run)
    ensures Extend(cfg, s, more) == Some(u) && InHand(u, p, o, rec, Reading(Row(t, Admitted(rec).value)))
    ensures u == t.(procs := u.procs)
  {
    hide Extend, InHand, Working, TaskOf, RecordOf, Goto, Admitted, KeyLocked;
    InHandFacts(t, p, o, rec, Deliver);
    GotoInHand(t, p, o, rec, Deliver, Reading(Row(t, Admitted(rec).value)));
    more, u := Grow(cfg, s, run, t, BeginSelect(0));
  }

  /** Waiting until the lease of the event's last grant is over. */
  lemma WaitInHand(cfg: Config, s: State, run: seq<Step>, t: State, p: Part, o: nat, rec: Record)
    returns (more: seq<Step>, u: State)
    requires Extend(cfg, s, run) == Some(t) && InHand(t, p, o, rec, Deliver) && Admitted(rec).Some?
    ensures u.pushed == t.pushed
    ensures Publishes(more) == Publishes(run)
    ensures Extend(cfg, s, more) == Some(u) && InHand(u, p, o, rec, Deliver) && u.dedup == t.dedup
    ensures Row(u, Admitted(rec).value).Some? ==> Free(cfg, Row(u, Admitted(rec).value).value, u.now)
  {
    hide Extend, Grant, AfterPublish, AfterDone, AfterFail, AfterDeadLetter, AfterCommit, Assigned, Admitted, Goto,
      KeyLocked;
    var e := Admitted(rec).value;
    var wait := if e in t.dedup && t.dedup[e].lockedAt.Some? then t.dedup[e].lockedAt.value + cfg.lease else 0;
    more, u := Grow(cfg, s, run, t, Tick(wait));
  }

  lemma GrantInHand(cfg: Config, s: State, run: seq<Step>, t: State, p: Part, o: nat, rec: Record)
    returns (more: seq<Step>, u: State)
    requires Extend(cfg, s, run) == Some(t) && Admitted(rec).Some? && !FinishedIn(t, rec)
    requires InHand(t, p, o, rec, Reading(Row(t, Admitted(rec).value)))
    requires Row(t, Admitted(rec).value).Some? ==> Free(cfg, Row(t, Admitted(rec).value).value, t.now)
    ensures u.pushed == t.pushed
    ensures Publishes(more) == Publishes(run)
    ensures Extend(cfg, s, more) == Some(u) && InHand(u, p, o, rec, Active(u.now, Fresh))
    ensures Row(u, Admitted(rec).value) == Some(DedupRow(false, Some(u.now)))
  {
    hide Extend, AfterPublish, AfterDone, AfterFail, AfterDeadLetter, AfterCommit, Assigned, Admitted, Free, Goto,
      Working, TaskOf, RecordOf, KeyLocked;
    InHandFacts(t, p, o, rec, Reading(Row(t, Admitted(rec).value)));
    GotoInHand(t, p, o, rec, Reading(Row(t, Admitted(rec).value)), Active(t.now, Fresh));
    more, u := Grow(cfg, s, run, t, BeginGrant(0, t.now, t.now, true));
  }

  /** The handler finds no gift in the payload ... */
  lemma DecodeInHand(cfg: Config, s: State, run: seq<Step>, t: State, p: Part, o: nat, rec: Record)
    returns (more: seq<Step>, u: State)
    requires Extend(cfg, s, run) == Some(t) && DecodeGift(rec) == None && InHand(t, p, o, rec, Active(t.now, Fresh))
    ensures Publishes(more) == Publishes(run)
    ensures Extend(cfg, s, more) == Some(u) && InHand(u, p, o, rec, Active(t.now, Failing(true))) && u.dedup == t.dedup
  {
    hide Extend, InHand, Working, TaskOf, RecordOf, Goto, Admitted, DecodeGift, KeyLocked;
    InHandFacts(t, p, o, rec, Active(t.now, Fresh));
    GotoInHand(t, p, o, rec, Active(t.now, Fresh), Active(t.now, Failing(true)));
    more, u := Grow(cfg, s, run, t, Decode(0));
  }

  /** ... and releases the event. */
  lemma ReleaseInHand(cfg: Config, s: State, run: seq<Step>, t: State, p: Part, o: nat, rec: Record, since: Time)
    returns (more: seq<Step>, u: State)
    requires Extend(cfg, s, run) == Some(t) && Admitted(rec).Some?
    requires InHand(t, p, o, rec, Active(since, Failing(true))) && Row(t, Admitted(rec).value) == Some(DedupRow(false, Some(since)))
    ensures Publishes(more) == Publishes(run)
    ensures Extend(cfg, s, more) == Some(u) && InHand(u, p, o, rec, DeadLettering) && !FinishedIn(u, rec)
  {
    hide Extend, Working, TaskOf, RecordOf, Goto, Admitted, DecodeGift, KeyLocked;
    InHandFacts(t, p, o, rec, Active(since, Failing(true)));
    GotoInHand(t, p, o, rec, Active(since, Failing(true)), DeadLettering);
    more, u := Grow(cfg, s, run, t, Step.Fail(0, true, true));
  }

  /** An admitted record that does not decode: once the lease is over it is granted, released and dead-lettered. */
  lemma PassUndecodable(cfg: Config, s: State, run: seq<Step>, t: State, p: Part, o: nat, rec: Record)
    returns (more: seq<Step>, u: State)
    requires Extend(cfg, s, run) == Some(t) && InHand(t, p, o, rec, Deliver) && Admitted(rec).Some? && !FinishedIn(t, rec)
    requires DecodeGift(rec) == None && Deliverable(cfg, rec)
    ensures Publishes(more) == Publishes(run)
    ensures Extend(cfg, s, more) == Some(u) && CommittedOf(u, p) == o + 1 && !FinishedIn(u, rec)
  {
    hide Extend, InHand, Admitted, DecodeGift, Deliverable;
    more, u := WaitInHand(cfg, s, run, t, p, o, rec);
    more, u := SelectInHand(cfg, s, more, u, p, o, rec);
    more, u := GrantInHand(cfg, s, more, u, p, o, rec);
    var since := u.now;
    more, u := DecodeInHand(cfg, s, more, u, p, o, rec);
    more, u := ReleaseInHand(cfg, s, more, u, p, o, rec, since);
    more, u := SettleAndCommit(cfg, s, more, u, p, o, rec, DeadLettering);
  }

  /** The handler publishes the granted gift ... */
  lemma PublishInHand(cfg: Config, s: State, run: seq<Step>, t: State, p: Part, o: nat, rec: Record, since: Time)
    returns (more: seq<Step>, u: State)
    requires Extend(cfg, s, run) == Some(t) && Publishable(rec) && InHand(t, p, o, rec, Active(since, Fresh))
    ensures Publishes(more) == Publishes(run) + 1
    ensures Extend(cfg, s, more) == Some(u) && InHand(u, p, o, rec, Active(since, Pushed)) && u.dedup == t.dedup
    ensures u.pushed == t.pushed + {PushOf(rec)}
  {
    hide Extend, Working, TaskOf, RecordOf, Goto, Admitted, DecodeGift, KeyLocked;
    InHandFacts(t, p, o, rec, Active(since, Fresh));
    GotoInHand(t, p, o, rec, Active(since, Fresh), Active(since, Pushed));
    more, u := Grow(cfg, s, run, t, Publish(0, true, true));
  }

  /** ... and marks its event as handled. */
  lemma FinishInHand(cfg: Config, s: State, run: seq<Step>, t: State, p: Part, o: nat, rec: Record, since: Time)
    returns (more: seq<Step>, u: State)
    requires Extend(cfg, s, run) == Some(t) && Admitted(rec).Some? && InHand(t, p, o, rec, Active(since, Pushed))
    requires Admitted(rec).value in t.dedup
    ensures Publishes(more) == Publishes(run)
    ensures Extend(cfg, s, more) == Some(u) && InHand(u, p, o, rec, Settling) && u.pushed == t.pushed && FinishedIn(u, rec)
  {
    hide Extend, Working, TaskOf, RecordOf, Goto, Admitted, DecodeGift, KeyLocked;
    InHandFacts(t, p, o, rec, Active(since, Pushed));
    GotoInHand(t, p, o, rec, Active(since, Pushed), Settling);
    more, u := Grow(cfg, s, run, t, Done(0, true, true));
  }

  /** A good record: once the lease is over it is granted, published once, finished and committed. */
  lemma PassPublishable(cfg: Config, s: State, run: seq<Step>, t: State, p: Part, o: nat, rec: Record)
    returns (more: seq<Step>, u: State)
    requires Extend(cfg, s, run) == Some(t) && InHand(t, p, o, rec, Deliver) && Publishable(rec) && !FinishedIn(t, rec)
    ensures Publishes(more) == Publishes(run) + 1
    ensures Extend(cfg, s, more) == Some(u) && CommittedOf(u, p) == o + 1 && FinishedIn(u, rec)
    ensures u.pushed == t.pushed + {PushOf(rec)}
  {
    hide Extend, InHand, Admitted, DecodeGift, Deliverable, PushOf;
    more, u := WaitInHand(cfg, s, run, t, p, o, rec);
    more, u := SelectInHand(cfg, s, more, u, p, o, rec);
    more, u := GrantInHand(cfg, s, more, u, p, o, rec);
    var since := u.now;
    more, u := PublishInHand(cfg, s, more, u, p, o, rec, since);
    more, u := FinishInHand(cfg, s, more, u, p, o, rec, since);
    more, u := SettleAndCommit(cfg, s, more, u, p, o, rec, Settling);
  }

  /**
   From any reachable state a good record at the head of its partition can be handled: some run commits past it and
   ends with status 1, with a single push of it, or without any if its event was finished already.
   */
  lemma GoodRecordPasses(cfg: Config, s: State, p: Part, o: nat) returns (run: seq<Step>, t: State)
    requires Reachable(cfg, s) && o < |LogOf(s.log, p)| && CommittedOf(s, p) == o && Publishable(LogOf(s.log, p)[o])
    ensures Passes(cfg, s, run, p, o) && Extend(cfg, s, run) == Some(t) && CommittedOf(t, p) == o + 1
    ensures var rec := LogOf(s.log, p)[o];
      && FinishedIn(t, rec)
      && (if FinishedIn(s, rec) then Publishes(run) == 0 && t.pushed == s.pushed
          else Publishes(run) == 1 && t.pushed == s.pushed + {PushOf(rec)})
  {
    hide Publishable, PushOf;
    var rec := LogOf(s.log, p)[o];
    run, t := TakeInHand(cfg, s, p, o);
    if FinishedIn(s, rec) {
      run, t := PassFinished(cfg, s, run, t, p, o, rec);
    } else {
      run, t := PassPublishable(cfg, s, run, t, p, o, rec);
    }
  }

  /**
   A record at the head of its partition can be passed exactly when it is publishable, its letter can be written or
   its event is finished already.
   */
  lemma PassableIff(cfg: Config, s: State, p: Part, o: nat)
    requires Reachable(cfg, s) && o < |LogOf(s.log, p)| && CommittedOf(s, p) == o
    ensures (exists run :: Passes(cfg, s, run, p, o)) <==>
      Publishable(LogOf(s.log, p)[o]) || Deliverable(cfg, LogOf(s.log, p)[o]) || FinishedIn(s, LogOf(s.log, p)[o])
  {
    hide Publishable;
    var rec := LogOf(s.log, p)[o];
    if run :| Passes(cfg, s, run, p, o) && !Publishable(rec) { PassedIsPassable(cfg, s, run, p, o); }
    if Publishable(rec) {
      var run, t := GoodRecordPasses(cfg, s, p, o);
    } else if Deliverable(cfg, rec) || FinishedIn(s, rec) {
      var run, t := TakeInHand(cfg, s, p, o);
      if FinishedIn(s, rec) {
        run, t := PassFinished(cfg, s, run, t, p, o, rec);
      } else if Admitted(rec).None? {
        run, t := PassRejected(cfg, s, run, t, p, o, rec);
      } else {
        NotPublishable(rec);
        run, t := PassUndecodable(cfg, s, run, t, p, o, rec);
      }
      assert Passes(cfg, s, run, p, o);
    }
  }

  lemma NotPublishable(rec: Record)
    requires !Publishable(rec) && Admitted(rec).Some?
    ensures DecodeGift(rec) == None
  {
  }
}
