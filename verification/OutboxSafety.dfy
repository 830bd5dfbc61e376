/** What the outbox guarantees in every reachable state of its step system, and from each to the next. */
module OutboxSafety {
  import opened Basics
  import opened Events
  import opened Outbox

  function ClaimsOf(s: State, id: RowId): seq<ClaimRecord> {
    if id in s.claims then s.claims[id] else []
  }

  ghost predicate HoldsOpen(s: State, w: WorkerId, o: Open) {
    w in s.workers && s.workers[w].Dispatching? && o in s.workers[w].todo
  }

  lemma OpenIsClaim(cfg: Config, s: State, w: WorkerId, o: Open)
    requires Inv(cfg, s) && HoldsOpen(s, w, o)
    ensures o.id in s.rows && o.id in s.claims && OpenOk(s.rows[o.id], s.claims[o.id], w, o)
    ensures ChainOk(cfg.lease, s.now, s.claims[o.id])
  {
  }

  /**
   Two workers hold one row only after the older claim outlived its lease: the stale limit under which the
   next claim was made already lay behind the older lock.
   */
  lemma LeaseExclusion(cfg: Config, s: State, v: WorkerId, o: Open, w: WorkerId, p: Open)
    requires Reachable(cfg, s) && HoldsOpen(s, v, o) && HoldsOpen(s, w, p)
    requires v != w && o.id == p.id && o.number <= p.number
    ensures var cl := ClaimsOf(s, o.id);
      && o.number + 1 < |cl| && cl[o.number].worker == v && cl[o.number + 1].takeover
      && cl[o.number].lockedAt + cfg.lease < cl[o.number + 1].clock <= s.now
  {
    ReachableInv(cfg, s);
    OpenIsClaim(cfg, s, v, o);
    OpenIsClaim(cfg, s, w, p);
  }

  /** The row still names the worker exactly when no later claim exists, and then its retry_count is the one read. */
  lemma HeadFacts(cfg: Config, run: seq<Step>, s: State, w: WorkerId)
    requires Run(cfg, run) == Some(s) && w in s.workers && s.workers[w].Dispatching? && s.workers[w].todo != []
    ensures var o := Head(s, w);
      && o.id in s.rows && o.number < |ClaimsOf(s, o.id)|
      && (Holds(s.rows[o.id], w) <==> o.number == |ClaimsOf(s, o.id)| - 1)
      && (Holds(s.rows[o.id], w) ==> s.rows[o.id].retryCount == o.retryRead)
  {
    RunKeepsInv(cfg, run);
    OpenIsClaim(cfg, s, w, Head(s, w));
    if Holds(s.rows[Head(s, w).id], w) { HeadIsCurrent(cfg, s, w); }
  }

  /** A worker that waits for a row lock does not release it by going on. */
  lemma AdvanceKeepsLock(s: State, w: WorkerId, id: RowId)
    requires w in s.workers && s.workers[w].Dispatching? && s.workers[w].todo != [] && Locked(s, id)
    ensures Locked(Advance(s, w), id)
  {
    var v :| v in s.workers && Locks(s, v, id);
    assert Locks(Advance(s, w), v, id);
  }

  /** A mark statement that runs changes the row exactly when the worker's claim is still the row's last one. */
  lemma MarkChangesOnlyCurrent(cfg: Config, s: State, step: Step)
    requires Reachable(cfg, s) && Enabled(cfg, s, step)
    requires (step.MarkPublished? || step.MarkFailed?) && step.executed
    ensures var o, t := Head(s, step.w), Apply(cfg, s, step);
      && (t.rows != s.rows <==> o.number == |ClaimsOf(s, o.id)| - 1)
      && (forall id :: id in s.rows && id != o.id ==> id in t.rows && t.rows[id] == s.rows[id])
  {
    var run :| Run(cfg, run) == Some(s);
    HeadFacts(cfg, run, s, step.w);
    var id := Head(s, step.w).id;
    if Holds(s.rows[id], step.w) {
      assert Apply(cfg, s, step).rows[id].status != Claimed;
    }
  }

  /** The delay dispatch asks for: the back-off of the retry_count it read at Claim, plus one. */
  predicate BacksOff(s: State, step: Step) {
    step.MarkFailed? && step.w in s.workers && s.workers[step.w].Dispatching? && s.workers[step.w].todo != [] ==>
      step.delay == Backoff(Head(s, step.w).retryRead + 1)
  }

  /** A failure stores its delay; that of dispatch is the back-off of the retry_count the row has after the failure. */
  lemma BackoffIsExact(cfg: Config, s: State, w: WorkerId, clock: Time, delay: int)
    requires Reachable(cfg, s) && Enabled(cfg, s, MarkFailed(w, clock, delay, true))
    requires Holds(s.rows[Head(s, w).id], w)
    ensures var id := Head(s, w).id; var rows := Apply(cfg, s, MarkFailed(w, clock, delay, true)).rows;
      && id in rows && rows[id].status == Pending && rows[id].retryCount == s.rows[id].retryCount + 1
      && rows[id].nextRetryAt == Some(clock + delay)
      && (BacksOff(s, MarkFailed(w, clock, delay, true)) ==> delay == Backoff(rows[id].retryCount))
  {
    hide RowsOk, BackoffOk, PublishedOk, ChainsOk, ClaimsOk, LocksExclusive, OpensOk, BatchesOk, CopiesOk, Reachable;
    ReachableInv(cfg, s);
    HeadIsCurrent(cfg, s, w);
  }

  /** Every worker of the run asks for the delay that dispatch computes. */
  ghost predicate Dispatched(cfg: Config, run: seq<Step>) {
    forall k :: 0 <= k < |run| && Run(cfg, run[..k]).Some? ==> BacksOff(Run(cfg, run[..k]).value, run[k])
  }

  ghost predicate DelaysOk(rows: map<RowId, Row>, failedAt: map<RowId, Failure>) {
    forall id :: id in rows && rows[id].status == Pending && rows[id].retryCount > 0 ==>
      id in failedAt && failedAt[id].delay == Backoff(rows[id].retryCount)
  }

  lemma StepKeepsDelays(cfg: Config, s: State, step: Step)
    requires Inv(cfg, s) && Enabled(cfg, s, step) && BacksOff(s, step) && DelaysOk(s.rows, s.failedAt)
    ensures DelaysOk(Apply(cfg, s, step).rows, Apply(cfg, s, step).failedAt)
  {
    hide RowsOk, BackoffOk, PublishedOk, ChainsOk, LocksExclusive, OpensOk, BatchesOk, CopiesOk, Backoff,
      Candidates, Locked;
    if step.MarkFailed? && step.executed && Holds(s.rows[Head(s, step.w).id], step.w) { HeadIsCurrent(cfg, s, step.w); }
  }

  lemma {:induction false} RunKeepsDelays(cfg: Config, run: seq<Step>)
    requires Run(cfg, run).Some? && Dispatched(cfg, run)
    ensures DelaysOk(Run(cfg, run).value.rows, Run(cfg, run).value.failedAt)
  {
    if run != [] {
      var before, last := run[..|run| - 1], run[|run| - 1];
      assert forall k :: 0 <= k < |before| ==> before[..k] == run[..k] && before[k] == run[k];
      RunKeepsDelays(cfg, before);
      RunKeepsInv(cfg, before);
      StepKeepsDelays(cfg, Run(cfg, before).value, last);
    }
  }

  /** While a failed row is pending it waits min(300 s, 2^(retry_count-1) s) from its last failure. */
  lemma BackoffIsKept(cfg: Config, run: seq<Step>, id: RowId)
    requires Run(cfg, run).Some? && Dispatched(cfg, run)
    requires var s := Run(cfg, run).value; id in s.rows && s.rows[id].status == Pending && s.rows[id].retryCount > 0
    ensures var s := Run(cfg, run).value;
      id in s.failedAt && s.rows[id].nextRetryAt == Some(s.failedAt[id].at + Backoff(s.rows[id].retryCount))
  {
    hide RowsOk, PublishedOk, ChainsOk, ClaimsOk, LocksExclusive, OpensOk, BatchesOk, CopiesOk, Backoff, Dispatched,
      Run;
    RunKeepsInv(cfg, run);
    RunKeepsDelays(cfg, run);
  }

  // ----- bounded duplication -----

  function Copies(sent: seq<Copy>, id: RowId): nat {
    if sent == [] then 0 else Copies(sent[..|sent| - 1], id) + (if sent[|sent| - 1].id == id then 1 else 0)
  }

  ghost function UsedNumbers(sent: seq<Copy>, id: RowId): set<nat> {
    set i | 0 <= i < |sent| && sent[i].id == id :: sent[i].number
  }

  lemma {:induction false} CopiesAreNumbers(sent: seq<Copy>, id: RowId)
    requires forall i, j :: 0 <= i < j < |sent| ==> sent[i] != sent[j]
    ensures Copies(sent, id) == |UsedNumbers(sent, id)|
  {
    if sent != [] {
      var before, last := sent[..|sent| - 1], sent[|sent| - 1];
      CopiesAreNumbers(before, id);
      if last.id == id {
        assert UsedNumbers(sent, id) == UsedNumbers(before, id) + {last.number};
        forall i | 0 <= i < |before| && before[i].id == id ensures before[i].number != last.number {
          assert sent[i] != last;
        }
      } else {
        assert UsedNumbers(sent, id) == UsedNumbers(before, id);
      }
    }
  }

  lemma {:induction false} BoundedNumbers(a: set<nat>, n: nat)
    requires forall x :: x in a ==> x < n
    ensures |a| <= n
  {
    if n == 0 {
      assert a == {};
    } else {
      BoundedNumbers(a - {n - 1}, n - 1);
      assert |a| <= |a - {n - 1}| + 1;
    }
  }

  /** Every claim is explained by a failure, a takeover or the current status; no claim yields two copies. */
  lemma BoundedDuplication(cfg: Config, s: State, id: RowId)
    requires Reachable(cfg, s) && id in s.rows
    ensures var cl := ClaimsOf(s, id);
      && |cl| == s.rows[id].retryCount + Takeovers(cl) + (if s.rows[id].status != Pending then 1 else 0)
      && Copies(s.sent, id) <= |cl|
      && (s.rows[id].status == Published ==> 1 <= Copies(s.sent, id))
  {
    ReachableInv(cfg, s);
    assert RowOk(s.rows[id], s.claims[id]);
    CopiesAreNumbers(s.sent, id);
    forall x | x in UsedNumbers(s.sent, id) ensures x < |s.claims[id]| {
      var i :| 0 <= i < |s.sent| && s.sent[i].id == id && s.sent[i].number == x;
      assert s.sent[i] in s.sent;
    }
    BoundedNumbers(UsedNumbers(s.sent, id), |s.claims[id]|);
    if s.rows[id].status == Published {
      var i :| 0 <= i < |s.sent| && s.sent[i].id == id;
      assert s.sent[i].number in UsedNumbers(s.sent, id);
    }
  }

  // ----- what later steps keep -----

  /** Rows are never removed, keep their event, never forget a failure, and a published row never changes again. */
  ghost predicate LaterRows(rows: map<RowId, Row>, later: map<RowId, Row>) {
    && (forall id :: id in rows ==>
          id in later && later[id].event == rows[id].event && rows[id].retryCount <= later[id].retryCount)
    && (forall id :: id in rows && rows[id].status == Published ==> later[id] == rows[id])
  }

  ghost predicate Later(s: State, t: State) {
    s.now <= t.now && LaterRows(s.rows, t.rows) && s.sent <= t.sent
  }

  lemma CommitIsLater(cfg: Config, s: State, w: WorkerId)
    requires Inv(cfg, s) && Enabled(cfg, s, CommitClaim(w, true))
    ensures LaterRows(s.rows, CommitRows(s, w))
  {
    hide RowsOk, BackoffOk, PublishedOk, ChainsOk, LocksExclusive, OpensOk, BatchesOk, CopiesOk;
    assert ClaimingOk(cfg, s.rows, s.now, s.workers[w]);
  }

  lemma MarkIsLater(cfg: Config, s: State, step: Step)
    requires Enabled(cfg, s, step) && (step.MarkPublished? || step.MarkFailed?)
    ensures Later(s, Apply(cfg, s, step))
  {
  }

  lemma OtherStepIsLater(cfg: Config, s: State, step: Step)
    requires Enabled(cfg, s, step) && !step.CommitClaim? && !step.MarkPublished? && !step.MarkFailed?
    ensures Later(s, Apply(cfg, s, step))
  {
    hide Eligible, Candidates, Limit, IsSmallest, Head;
  }

  /** Publishing is final, and nothing that was handed to Kafka is taken back. */
  lemma StepIsLater(cfg: Config, s: State, step: Step)
    requires Inv(cfg, s) && Enabled(cfg, s, step)
    ensures Later(s, Apply(cfg, s, step))
  {
    if step.CommitClaim? {
      CommitIsLater(cfg, s, step.w);
    } else if step.MarkPublished? || step.MarkFailed? {
      MarkIsLater(cfg, s, step);
    } else {
      OtherStepIsLater(cfg, s, step);
    }
  }

  lemma {:induction false} ExtensionIsLater(cfg: Config, run: seq<Step>, longer: seq<Step>)
    requires run <= longer && Run(cfg, longer).Some?
    ensures Run(cfg, run).Some? && Later(Run(cfg, run).value, Run(cfg, longer).value)
    decreases |longer|
  {
    if run != longer {
      var before := longer[..|longer| - 1];
      assert run <= before;
      ExtensionIsLater(cfg, run, before);
      RunKeepsInv(cfg, before);
      StepIsLater(cfg, Run(cfg, before).value, longer[|longer| - 1]);
    }
  }

  // ----- no loss -----

  /** From this instant on an unpublished row satisfies Claim's WHERE clause, if nothing touches it before. */
  function ReadyAt(cfg: Config, row: Row): Time {
    match row.status
    case Claimed => if row.lockedAt.Some? then row.lockedAt.value + cfg.lease + 1 else 0
    case _ => if row.nextRetryAt.Some? && row.nextRetryAt.value >= 0 then row.nextRetryAt.value else 0
  }

  /** Every row is on its way or will be claimable again: a row is never stranded. */
  lemma NoRowStranded(cfg: Config, s: State, id: RowId, now: Time, clock: Time)
    requires Reachable(cfg, s) && id in s.rows
    requires now >= ReadyAt(cfg, s.rows[id]) && clock >= ReadyAt(cfg, s.rows[id])
    ensures if s.rows[id].status == Published then Delivered(s.sent, id) else Eligible(cfg, s.rows[id], now, clock)
  {
    ReachableInv(cfg, s);
    assert RowOk(s.rows[id], s.claims[id]);
  }
}
