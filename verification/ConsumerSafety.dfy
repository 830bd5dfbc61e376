/** What the gift consumers guarantee in every reachable state, through retries, crashes and rebalances. */
module ConsumerSafety {
  import opened Basics
  import opened Events
  import opened DeadLetters
  import opened Consumer

  // ----- what the handler accepts and publishes -----

  /** A record with a complete envelope of a gift, and a gift with all its fields in range. */
  predicate Complete(rec: Record) {
    rec.value.Wire? &&
    var e := rec.value.envelope;
    && !Blank(e.eventId) && e.eventType == "gift.sent" && e.roomId > 0 && e.stamped && e.payload.OfGift?
    && e.payload.gift.orderNo != "" && e.payload.gift.giftName != ""
    && e.payload.gift.userId > 0 && e.payload.gift.anchorId > 0 && e.payload.gift.giftId > 0
    && e.payload.gift.count > 0 && e.payload.gift.unitPrice >= 0 && e.payload.gift.totalAmount >= 0
  }

  /** The handler publishes exactly the complete records, under their event id, to their room, with their gift. */
  lemma PublishableIff(rec: Record)
    ensures Publishable(rec) <==> Complete(rec)
    ensures Publishable(rec) ==>
      Admitted(rec) == Some(rec.value.envelope.eventId) &&
      PushOf(rec) == Push(rec.value.envelope.eventId, rec.value.envelope.roomId, rec.value.envelope.payload.gift)
  {
    assert EVENT_TYPE_GIFT_SENT[0] == 'g';
  }

  /** Without a payload that decodes a record may still be admitted, and then it is deduplicated. */
  lemma AdmittedIff(rec: Record)
    ensures Admitted(rec).Some? <==>
      rec.value.Wire? && !Blank(rec.value.envelope.eventId) && rec.value.envelope.eventType == "gift.sent" &&
      rec.value.envelope.roomId > 0 && rec.value.envelope.stamped && rec.value.envelope.payload != Absent
  {
    assert EVENT_TYPE_GIFT_SENT[0] == 'g';
  }

  /** A letter tells where its record was, what it held and which of the two checks it failed. */
  lemma LetterTells(cfg: Config, p: Part, o: nat, rec: Record)
    ensures var d := LetterOf(cfg, p, o, rec);
      && d.sourceTopic == cfg.topic && d.group == cfg.group && d.partition == p && d.offset == o
      && d.key == rec.key && d.value == rec.value && d.stamped
      && d.error == if Admitted(rec).None? then "invalid gift envelope" else "invalid gift payload"
  {
  }

  // ----- the committed prefix -----

  /** Only records the handler rejects are dead-lettered. */
  lemma DeadLetteredIsRejected(cfg: Config, s: State, p: Part, o: nat)
    requires Inv(cfg, s) && o < |LogOf(s.log, p)| && InDlq(cfg, s.dlq, p, o, LogOf(s.log, p)[o])
    ensures !Publishable(LogOf(s.log, p)[o])
  {
    var i :| 0 <= i < |s.dlq| && Preserves(cfg, s.dlq[i], p, o, LogOf(s.log, p)[o]);
    assert LetterOk(cfg, s.log, s.dlq[i]);
  }

  /** The event of the record is marked handled. */
  ghost predicate FinishedIn(s: State, rec: Record) {
    Admitted(rec).Some? && FinishedEvent(s.dedup, Admitted(rec).value)
  }

  /**
   Below the committed offset nothing is skipped: the event of a record is finished, and hence pushed, or the record
   was rejected and sits in the DLQ with its topic, partition, offset, key and value.
   */
  lemma CommittedPrefix(cfg: Config, s: State, p: Part, o: nat)
    requires Reachable(cfg, s) && o < CommittedOf(s, p)
    ensures o < |LogOf(s.log, p)|
    ensures var rec := LogOf(s.log, p)[o];
      && (Publishable(rec) ==> FinishedIn(s, rec))
      && (FinishedIn(s, rec) || InDlq(cfg, s.dlq, p, o, rec))
      && (FinishedIn(s, rec) ==> PushedEvent(s.pushed, Admitted(rec).value))
  {
    ReachableInv(cfg, s);
    assert SettledBelow(cfg, s.log, FactsOf(s), s.dlq, p, s.committed[p]);
    var rec := LogOf(s.log, p)[o];
    assert Settled(cfg, FactsOf(s), s.dlq, p, o, rec);
    if InDlq(cfg, s.dlq, p, o, rec) { DeadLetteredIsRejected(cfg, s, p, o); }
  }

  /** The DLQ writer takes a letter of this consumer exactly when the source is valid and the record has a value. */
  predicate Deliverable(cfg: Config, rec: Record) {
    ValidSource(cfg.topic, cfg.group) && rec.value != Null
  }

  lemma LetterValidIff(cfg: Config, p: Part, o: nat, rec: Record)
    ensures Valid(LetterOf(cfg, p, o, rec)) <==> Deliverable(cfg, rec)
  {
    var error := LetterOf(cfg, p, o, rec).error;
    assert error[0] == 'i';
  }

  lemma DeadLetteredIsDeliverable(cfg: Config, s: State, p: Part, o: nat)
    requires Inv(cfg, s) && o < |LogOf(s.log, p)| && InDlq(cfg, s.dlq, p, o, LogOf(s.log, p)[o])
    ensures Deliverable(cfg, LogOf(s.log, p)[o])
  {
    var rec := LogOf(s.log, p)[o];
    var i :| 0 <= i < |s.dlq| && Preserves(cfg, s.dlq[i], p, o, rec);
    assert LetterOk(cfg, s.log, s.dlq[i]);
    LetterValidIff(cfg, p, o, rec);
  }

  /**
   A record that is rejected, cannot be dead-lettered and whose event is not finished, such as one without a value,
   stops its partition: the committed offset has not passed it, whatever the consumers did.
   */
  lemma UndeliverableBlocksPartition(cfg: Config, s: State, p: Part, o: nat)
    requires Reachable(cfg, s) && o < |LogOf(s.log, p)|
    requires var rec := LogOf(s.log, p)[o]; !Publishable(rec) && !Deliverable(cfg, rec) && !FinishedIn(s, rec)
    ensures CommittedOf(s, p) <= o
  {
    ReachableInv(cfg, s);
    var rec := LogOf(s.log, p)[o];
    if InDlq(cfg, s.dlq, p, o, rec) { DeadLetteredIsDeliverable(cfg, s, p, o); }
    if CommittedOf(s, p) > o { CommittedPrefix(cfg, s, p, o); }
  }

  // ----- what later steps keep -----

  ghost predicate StateGrown(s: State, t: State) {
    Grown(s.log, FactsOf(s), s.dlq, t.log, FactsOf(t), t.dlq)
  }

  /** What a record's fate is judged by never shrinks. */
  lemma FinishedStays(cfg: Config, s: State, step: Step, e: string)
    requires Inv(cfg, s) && Enabled(cfg, s, step) && FinishedEvent(s.dedup, e)
    ensures FinishedEvent(Apply(cfg, s, step).dedup, e)
  {
    hide CommittedOk, ProcsOk, HistoryOk, OriginOk, LettersOk, DoneOk, DecodeGift, LetterOf, PushOf;
    if step.BeginGrant? && TaskOf(s, step.c).stage.seen.Some? {
      assert LocksKey(s, step.c, EventOf(s, step.c));
    }
  }

  lemma StepGrows(cfg: Config, s: State, step: Step)
    requires Inv(cfg, s) && Enabled(cfg, s, step)
    ensures StateGrown(s, Apply(cfg, s, step))
  {
    hide Inv, FinishedEvent, Admitted, DecodeGift, Free;
    forall e | FinishedEvent(s.dedup, e) ensures FinishedEvent(Apply(cfg, s, step).dedup, e) {
      FinishedStays(cfg, s, step, e);
    }
  }

  // ----- deduplication -----

  /** Two grants of one event are separated by a release or by a full lease. */
  lemma {:induction false} GrantsSeparated(cfg: Config, marks: seq<Mark>, i: nat, j: nat)
    requires MarksOk(cfg, marks) && i < j < |marks| && marks[i].Granted? && marks[j].Granted?
    ensures (exists k :: i < k < j && marks[k].Released?) || marks[i].at + cfg.lease <= marks[j].checked
    decreases j
  {
    if marks[j - 1].Granted? && i < j - 1 {
      GrantsSeparated(cfg, marks, i, j - 1);
    }
  }

  lemma {:induction false} FinishIsLast(cfg: Config, marks: seq<Mark>, i: nat, j: nat)
    requires MarksOk(cfg, marks) && i <= j < |marks| && marks[i].Finished?
    ensures marks[j].Finished?
    decreases j
  {
    if i < j { FinishIsLast(cfg, marks, i, j - 1); }
  }

  /** Begin never grants an event twice within a lease unless it was released, and never after it was finished. */
  lemma DedupLease(cfg: Config, s: State, e: string, i: nat, j: nat)
    requires Reachable(cfg, s) && i < j < |HistoryOf(s.history, e)|
    ensures var marks := HistoryOf(s.history, e);
      && (marks[i].Finished? ==> marks[j].Finished?)
      && (marks[i].Granted? && marks[j].Granted? ==>
            (exists k :: i < k < j && marks[k].Released?) || marks[i].at + cfg.lease <= marks[j].checked)
  {
    ReachableInv(cfg, s);
    var marks := HistoryOf(s.history, e);
    assert MarksOk(cfg, s.history[e]);
    if marks[i].Finished? { FinishIsLast(cfg, marks, i, j); }
    if marks[i].Granted? && marks[j].Granted? { GrantsSeparated(cfg, marks, i, j); }
  }

  /** Status 1 implies an earlier push of the event, and no step takes it back. */
  lemma DoneIsFinal(cfg: Config, s: State, step: Step, e: string)
    requires Reachable(cfg, s) && Enabled(cfg, s, step) && e in s.dedup && s.dedup[e].done
    ensures PushedEvent(s.pushed, e)
    ensures var t := Apply(cfg, s, step); e in t.dedup && t.dedup[e] == s.dedup[e]
  {
    hide CommittedOk, ProcsOk, HistoryOk, OriginOk, LettersOk, DecodeGift, LetterOf, PushOf;
    ReachableInv(cfg, s);
    if step.BeginGrant? && TaskOf(s, step.c).stage.seen.Some? {
      assert LocksKey(s, step.c, EventOf(s, step.c));
    }
  }

  /** No handler is still active when the lease of its grant has run out. */
  ghost predicate Prompt(cfg: Config, s: State) {
    forall c, e :: IsActive(s, c, e) ==> s.now < TaskOf(s, c).stage.since + cfg.lease
  }

  /** At most one consumer is active on an event, and the row shows its grant. */
  ghost predicate Exclusive(s: State) {
    && (forall c, e :: IsActive(s, c, e) ==> Row(s, e) == Some(DedupRow(false, Some(TaskOf(s, c).stage.since))))
    && (forall c, d, e :: IsActive(s, c, e) && IsActive(s, d, e) ==> c == d)
  }

  lemma ActivesCarryOver(s: State, t: State)
    requires Exclusive(s)
    requires forall c, e :: IsActive(t, c, e) ==>
      IsActive(s, c, e) && TaskOf(t, c).stage.since == TaskOf(s, c).stage.since && Row(t, e) == Row(s, e)
    ensures Exclusive(t)
  {
  }

  /** Nobody is active on an event Begin may grant, provided every handler was prompt so far. */
  lemma GrantedToOne(cfg: Config, s: State, c: ConsumerId, clock: Time, stamp: Time, acked: bool)
    requires Inv(cfg, s) && Prompt(cfg, s) && Exclusive(s) && Enabled(cfg, s, BeginGrant(c, clock, stamp, acked))
    ensures forall d :: !IsActive(s, d, EventOf(s, c))
  {
    var e := EventOf(s, c);
    if TaskOf(s, c).stage.seen.Some? { assert LocksKey(s, c, e); }
  }

  lemma GrantKeepsExclusive(cfg: Config, s: State, c: ConsumerId, clock: Time, stamp: Time, acked: bool)
    requires Inv(cfg, s) && Prompt(cfg, s) && Exclusive(s) && Enabled(cfg, s, BeginGrant(c, clock, stamp, acked))
    ensures Exclusive(Grant(s, c, clock, stamp, acked))
  {
    hide Inv, Prompt;
    GrantedToOne(cfg, s, c, clock, stamp, acked);
    var t := Grant(s, c, clock, stamp, acked);
    forall d, e | IsActive(t, d, e) && d != c ensures IsActive(s, d, e) && TaskOf(t, d) == TaskOf(s, d) {}
  }

  /** Ending a handler leaves nobody active on its event. */
  lemma EndKeepsExclusive(cfg: Config, s: State, c: ConsumerId, t: State, e: string)
    requires Exclusive(s) && IsActive(s, c, e) && t.log == s.log && c in t.procs
    requires forall f :: f != e ==> Row(t, f) == Row(s, f)
    requires forall d :: d != c ==> (d in t.procs <==> d in s.procs) && (d in s.procs ==> t.procs[d] == s.procs[d])
    requires t.procs[c].work.Some? ==> !t.procs[c].work.value.stage.Active?
    ensures Exclusive(t)
  {
    forall d, f | IsActive(t, d, f)
      ensures IsActive(s, d, f) && TaskOf(t, d) == TaskOf(s, d) && Row(t, f) == Row(s, f)
    {
      assert d != c && IsActive(s, d, f);
    }
    ActivesCarryOver(s, t);
  }

  lemma AppendKeepsExclusive(cfg: Config, s: State, p: Part, rec: Record)
    requires Inv(cfg, s) && Exclusive(s)
    ensures Exclusive(Apply(cfg, s, Append(p, rec)))
  {
    var t := Apply(cfg, s, Append(p, rec));
    forall c, e | IsActive(t, c, e) ensures IsActive(s, c, e) {
      assert ProcOk(cfg, s.log, FactsOf(s), s.dlq, s.procs[c]);
    }
    ActivesCarryOver(s, t);
  }

  /** Steps between two records. */
  lemma IdleKeepsExclusive(cfg: Config, s: State, step: Step)
    requires Exclusive(s) && Enabled(cfg, s, step)
    requires step.Tick? || step.Assign? || step.Revoke? || step.Fetch?
    ensures Exclusive(Apply(cfg, s, step))
  {
    ActivesCarryOver(s, Apply(cfg, s, step));
  }

  /** Steps that end the work on a record. */
  lemma BoundaryKeepsExclusive(cfg: Config, s: State, step: Step)
    requires Exclusive(s) && Enabled(cfg, s, step)
    requires step.DeadLetter? || step.Commit? || step.Crash?
    ensures Exclusive(Apply(cfg, s, step))
  {
    ActivesCarryOver(s, Apply(cfg, s, step));
  }

  lemma InnerKeepsExclusive(cfg: Config, s: State, step: Step)
    requires Exclusive(s) && Enabled(cfg, s, step)
    requires step.Reject? || step.BeginSelect? || step.BeginDone? || step.BeginError? || step.Decode? || step.Publish?
    ensures Exclusive(Apply(cfg, s, step))
  {
    hide Exclusive;
    ActivesCarryOver(s, Apply(cfg, s, step));
  }

  lemma DoneKeepsExclusive(cfg: Config, s: State, c: ConsumerId, acked: bool, executed: bool)
    requires Exclusive(s) && Enabled(cfg, s, Done(c, acked, executed))
    ensures Exclusive(AfterDone(s, c, acked, executed))
  {
    EndKeepsExclusive(cfg, s, c, AfterDone(s, c, acked, executed), EventOf(s, c));
  }

  lemma FailKeepsExclusive(cfg: Config, s: State, c: ConsumerId, acked: bool, executed: bool)
    requires Exclusive(s) && Enabled(cfg, s, Fail(c, acked, executed))
    ensures Exclusive(AfterFail(s, c, acked, executed))
  {
    EndKeepsExclusive(cfg, s, c, AfterFail(s, c, acked, executed), EventOf(s, c));
  }

  lemma StepKeepsExclusive(cfg: Config, s: State, step: Step)
    requires Inv(cfg, s) && Prompt(cfg, s) && Exclusive(s) && Enabled(cfg, s, step)
    ensures Exclusive(Apply(cfg, s, step))
  {
    hide Inv, Prompt, Exclusive, AfterPublish, Assigned, AfterDeadLetter, AfterCommit, Grant, AfterDone, AfterFail,
      Goto, Exit;
    match step
    case BeginGrant(c, clock, stamp, acked) => GrantKeepsExclusive(cfg, s, c, clock, stamp, acked);
    case Done(c, acked, executed) => DoneKeepsExclusive(cfg, s, c, acked, executed);
    case Fail(c, acked, executed) => FailKeepsExclusive(cfg, s, c, acked, executed);
    case Append(p, rec) => AppendKeepsExclusive(cfg, s, p, rec);
    case Tick(_) => IdleKeepsExclusive(cfg, s, step);
    case Assign(_, _) => IdleKeepsExclusive(cfg, s, step);
    case Revoke(_, _) => IdleKeepsExclusive(cfg, s, step);
    case Fetch(_, _) => IdleKeepsExclusive(cfg, s, step);
    case DeadLetter(_, _, _) => BoundaryKeepsExclusive(cfg, s, step);
    case Commit(_, _, _) => BoundaryKeepsExclusive(cfg, s, step);
    case Crash(_) => BoundaryKeepsExclusive(cfg, s, step);
    case _ => InnerKeepsExclusive(cfg, s, step);
  }

  /** If along a run every handler ends within its lease, no event is ever being handled twice at a time. */
  lemma {:induction false} PromptRunsAreExclusive(cfg: Config, run: seq<Step>)
    requires Run(cfg, run).Some?
    requires forall k :: 0 <= k < |run| && Run(cfg, run[..k]).Some? ==> Prompt(cfg, Run(cfg, run[..k]).value)
    ensures Exclusive(Run(cfg, run).value)
  {
    if run != [] {
      var before := run[..|run| - 1];
      forall k | 0 <= k < |before| && Run(cfg, before[..k]).Some? ensures Prompt(cfg, Run(cfg, before[..k]).value) {
        assert before[..k] == run[..k];
      }
      PromptRunsAreExclusive(cfg, before);
      RunKeepsInv(cfg, before);
      StepKeepsExclusive(cfg, Run(cfg, before).value, run[|run| - 1]);
    }
  }
}
