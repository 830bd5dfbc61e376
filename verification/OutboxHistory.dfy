/** The outbox over whole runs: nobody claims a row before it is due, and everything can always be published. */
module OutboxHistory {
  import opened Basics
  import opened Events
  import opened Outbox
  import opened OutboxSafety

  // ----- the delay -----

  /** The delay starts at one second, doubles with each failure and stops at five minutes. */
  lemma BackoffDoubles(n: nat)
    requires n >= 1
    ensures Backoff(1) == 1_000_000_000
    ensures Backoff(n + 1) == if 2 * Backoff(n) > 300_000_000_000 then 300_000_000_000 else 2 * Backoff(n)
  {
    assert Pow2(n) == 2 * Pow2(n - 1);
  }

  // ----- no claim before a row is due -----

  lemma {:induction false} PrefixRuns(cfg: Config, run: seq<Step>, i: nat)
    requires Run(cfg, run).Some? && i <= |run|
    ensures Run(cfg, run[..i]).Some?
  {
    if i < |run| {
      PrefixRuns(cfg, run[..|run| - 1], i);
      assert run[..|run| - 1][..i] == run[..i];
    } else {
      assert run[..i] == run;
    }
  }

  /** The state before step `i`. */
  ghost function At(cfg: Config, run: seq<Step>, i: nat): (s: State)
    requires Run(cfg, run).Some? && i <= |run|
    ensures Run(cfg, run[..i]) == Some(s)
  {
    PrefixRuns(cfg, run, i);
    Run(cfg, run[..i]).value
  }

  lemma StepAt(cfg: Config, run: seq<Step>, i: nat)
    requires Run(cfg, run).Some? && i < |run|
    ensures Enabled(cfg, At(cfg, run, i), run[i]) && At(cfg, run, i + 1) == Apply(cfg, At(cfg, run, i), run[i])
  {
    hide Enabled, Apply;
    var more := run[..i + 1];
    PrefixRuns(cfg, run, i + 1);
    assert more[..|more| - 1] == run[..i] && more[|more| - 1] == run[i];
  }

  /** The row is pending until this instant, and nobody is about to claim it. */
  ghost predicate Waits(s: State, id: RowId, due: int) {
    && id in s.rows && s.rows[id].status == Pending && s.rows[id].nextRetryAt == Some(due)
    && forall w :: w in s.workers && s.workers[w].Claiming? ==> id !in s.workers[w].ids
  }

  /** Whoever selects a row that waits has reached its instant. */
  lemma SelectIsDue(cfg: Config, s: State, step: Step, id: RowId, due: int)
    requires Enabled(cfg, s, step) && step.Select? && id in step.ids && Waits(s, id, due)
    ensures due <= s.now
  {
    var i :| 0 <= i < |step.ids| && step.ids[i] == id;
  }

  lemma WaitStays(cfg: Config, s: State, step: Step, id: RowId, due: int)
    requires Enabled(cfg, s, step) && Waits(s, id, due) && s.now < due
    ensures Waits(Apply(cfg, s, step), id, due)
  {
    hide Candidates, IsSmallest, Limit;
    if step.Select? && id in step.ids { SelectIsDue(cfg, s, step, id, due); }
  }

  /** Step `a` marks a failure of the row, by this clock and with this delay. */
  ghost predicate FailsAt(cfg: Config, run: seq<Step>, a: nat, id: RowId) {
    Run(cfg, run).Some? && a < |run| && run[a].MarkFailed? && run[a].executed &&
    var s := At(cfg, run, a);
    HasHead(s, run[a].w, Refused) && Head(s, run[a].w).id == id && id in s.rows && Holds(s.rows[id], run[a].w)
  }

  lemma FailureWaits(cfg: Config, s: State, step: Step)
    requires Enabled(cfg, s, step) && step.MarkFailed? && step.executed && Holds(s.rows[Head(s, step.w).id], step.w)
    ensures Waits(Apply(cfg, s, step), Head(s, step.w).id, step.clock + step.delay)
    ensures Apply(cfg, s, step).rows[Head(s, step.w).id].retryCount == s.rows[Head(s, step.w).id].retryCount + 1
  {
    var id := Head(s, step.w).id;
    assert !Locked(s, id);
    forall w | w in s.workers && s.workers[w].Claiming? ensures id !in s.workers[w].ids { assert !Locks(s, w, id); }
  }

  lemma {:induction false} WaitsUntil(cfg: Config, run: seq<Step>, a: nat, b: nat, id: RowId)
    requires FailsAt(cfg, run, a, id) && a < b <= |run|
    ensures Waits(At(cfg, run, b), id, run[a].clock + run[a].delay) || run[a].clock + run[a].delay <= At(cfg, run, b).now
    decreases b
  {
    hide Run, Enabled, Apply;
    StepAt(cfg, run, b - 1);
    if b == a + 1 {
      FailureIsEnabled(cfg, run, a, id);
      FailureWaits(cfg, At(cfg, run, a), run[a]);
    } else {
      WaitsUntil(cfg, run, a, b - 1, id);
      var s := At(cfg, run, b - 1);
      if s.now < run[a].clock + run[a].delay {
        WaitStays(cfg, s, run[b - 1], id, run[a].clock + run[a].delay);
      } else {
        TimePasses(cfg, s, run[b - 1]);
      }
    }
  }

  lemma FailureIsEnabled(cfg: Config, run: seq<Step>, a: nat, id: RowId)
    requires FailsAt(cfg, run, a, id)
    ensures Enabled(cfg, At(cfg, run, a), run[a]) && HasHead(At(cfg, run, a), run[a].w, Refused)
  {
    StepAt(cfg, run, a);
  }

  lemma TimePasses(cfg: Config, s: State, step: Step)
    requires Enabled(cfg, s, step)
    ensures s.now <= Apply(cfg, s, step).now
  {
    hide Candidates, IsSmallest, CommitRows, CommitClaims, Returned;
  }

  /** No claim selects a row before an earlier failure of it plus the delay that failure asked for. */
  lemma NoClaimBeforeDue(cfg: Config, run: seq<Step>, a: nat, b: nat, id: RowId)
    requires FailsAt(cfg, run, a, id) && a < b < |run| && run[b].Select? && id in run[b].ids
    ensures run[a].clock + run[a].delay <= At(cfg, run, b).now
  {
    hide Run;
    WaitsUntil(cfg, run, a, b, id);
    StepAt(cfg, run, b);
    if Waits(At(cfg, run, b), id, run[a].clock + run[a].delay) {
      SelectIsDue(cfg, At(cfg, run, b), run[b], id, run[a].clock + run[a].delay);
    }
  }

  /** With the delays of dispatch: not before min(300 s, 2^(n-1) s) after the failure that raised retry_count to n. */
  lemma NoClaimDuringBackoff(cfg: Config, run: seq<Step>, a: nat, b: nat, id: RowId)
    requires FailsAt(cfg, run, a, id) && Dispatched(cfg, run)
    requires a < b < |run| && run[b].Select? && id in run[b].ids
    ensures id in At(cfg, run, a + 1).rows && At(cfg, run, a + 1).rows[id].retryCount >= 1
    ensures run[a].clock + Backoff(At(cfg, run, a + 1).rows[id].retryCount) <= At(cfg, run, b).now
  {
    hide Run, Backoff;
    NoClaimBeforeDue(cfg, run, a, b, id);
    StepAt(cfg, run, a);
    FailureWaits(cfg, At(cfg, run, a), run[a]);
    assert BacksOff(At(cfg, run, a), run[a]);
    HeadFacts(cfg, run[..a], At(cfg, run, a), run[a].w);
  }

  // ----- the outbox can be drained -----

  /** One step more, as a run. */
  lemma Grow(cfg: Config, run: seq<Step>, s: State, step: Step) returns (more: seq<Step>, t: State)
    requires Run(cfg, run) == Some(s) && Enabled(cfg, s, step)
    ensures t == Apply(cfg, s, step) && Run(cfg, more) == Some(t) && run <= more
  {
    more, t := run + [step], Apply(cfg, s, step);
    assert more[..|run|] == run;
  }

  /** Every worker crashes; nothing else changes. */
  lemma CrashAll(cfg: Config, run: seq<Step>, s: State) returns (more: seq<Step>)
    requires Run(cfg, run) == Some(s)
    ensures Run(cfg, more) == Some(s.(workers := map[])) && run <= more
    decreases |s.workers|
  {
    hide Run;
    if w :| w in s.workers {
      var grown, t := Grow(cfg, run, s, Crash(w));
      assert t.workers.Keys == s.workers.Keys - {w};
      more := CrashAll(cfg, grown, t);
    } else {
      assert s.workers == map[];
      more := run;
    }
  }

  function Unpublished(rows: map<RowId, Row>): set<RowId> {
    set id | id in rows && rows[id].status != Published
  }

  /** From this instant on every row that is not published can be claimed. */
  lemma {:induction false} ReadyTime(cfg: Config, rows: map<RowId, Row>, ids: set<RowId>) returns (at: Time)
    requires ids <= rows.Keys
    ensures forall id :: id in ids ==> ReadyAt(cfg, rows[id]) <= at
    decreases |ids|
  {
    at := 0;
    if id :| id in ids {
      at := ReadyTime(cfg, rows, ids - {id});
      if at < ReadyAt(cfg, rows[id]) { at := ReadyAt(cfg, rows[id]); }
    }
  }

  /** Nobody is at work, and every row that is not published can be claimed by the present clock. */
  ghost predicate Ripe(cfg: Config, s: State) {
    s.workers == map[] && Candidates(cfg, s, s.now) == Unpublished(s.rows)
  }

  /** After a crash of everybody and some time the rows are ripe. */
  lemma Ripen(cfg: Config, run: seq<Step>, s: State) returns (more: seq<Step>, t: State)
    requires Run(cfg, run) == Some(s)
    ensures Run(cfg, more) == Some(t) && run <= more && Ripe(cfg, t) && t.rows == s.rows && t.sent == s.sent
    ensures t.claims == s.claims
  {
    hide Run, Eligible;
    more := CrashAll(cfg, run, s);
    t := s.(workers := map[]);
    var at := ReadyTime(cfg, s.rows, Unpublished(s.rows));
    more, t := Grow(cfg, more, t, Tick(at));
    assert Reachable(cfg, t);
    forall id | id in t.rows ensures Eligible(cfg, t.rows[id], t.now, t.now) <==> t.rows[id].status != Published {
      if t.rows[id].status == Published {
        PublishedIsDone(cfg, t.rows[id], t.now);
      } else {
        assert id in Unpublished(s.rows);
        NoRowStranded(cfg, t, id, t.now, t.now);
      }
    }
  }

  lemma PublishedIsDone(cfg: Config, row: Row, now: Time)
    requires row.status == Published
    ensures !Eligible(cfg, row, now, now)
  {
  }

  /** The worker 0 is alone and has stamped the first rows of its claim. */
  ghost predicate Stamping(s: State, ids: seq<RowId>, done: nat) {
    && s.workers.Keys == {0} && s.workers[0].Claiming? && s.workers[0].ids == ids && s.workers[0].done == done <= |ids|
    && forall i :: 0 <= i < done ==> ids[i] in s.workers[0].stamps
  }

  lemma {:induction false} StampAll(cfg: Config, run: seq<Step>, s: State, ids: seq<RowId>, done: nat)
    returns (more: seq<Step>, t: State)
    requires Run(cfg, run) == Some(s) && Stamping(s, ids, done)
    ensures Run(cfg, more) == Some(t) && run <= more && Stamping(t, ids, |ids|)
    ensures t == s.(workers := t.workers)
    decreases |ids| - done
  {
    hide Run;
    more, t := run, s;
    if done < |ids| {
      more, t := Grow(cfg, run, s, Stamp(0));
      assert t.workers[0].stamps == s.workers[0].stamps[ids[done] := s.now];
      more, t := StampAll(cfg, more, t, ids, done + 1);
    }
  }

  /** One ripe row is claimed, sent and marked, with nothing in the way. */
  lemma PublishOne(cfg: Config, run: seq<Step>, s: State) returns (more: seq<Step>, t: State, id: RowId)
    requires Run(cfg, run) == Some(s) && Ripe(cfg, s) && Unpublished(s.rows) != {}
    ensures Run(cfg, more) == Some(t) && run <= more
    ensures id in s.rows && s.rows[id].status != Published && t.rows.Keys == s.rows.Keys
    ensures Unpublished(t.rows) == Unpublished(s.rows) - {id}
    ensures forall r :: r in s.rows ==> t.rows[r].event == s.rows[r].event
    ensures exists number :: t.sent == s.sent + [Copy(id, number)]
  {
    hide Run, Eligible, Limit, Candidates, CommitRows, CommitClaims;
    more, t, id := ClaimSome(cfg, run, s);
    var u := t;
    more, t := SendHead(cfg, more, t);
    assert Unpublished(t.rows) == Unpublished(s.rows) - {id};
    assert t.sent == s.sent + [Copy(id, Head(u, 0).number)];
  }

  /** The worker 0 claims what it can. */
  lemma ClaimSome(cfg: Config, run: seq<Step>, s: State) returns (more: seq<Step>, t: State, id: RowId)
    requires Run(cfg, run) == Some(s) && Ripe(cfg, s) && Unpublished(s.rows) != {}
    ensures Run(cfg, more) == Some(t) && run <= more && t.workers.Keys == {0} && HasHead(t, 0, Unsent) && t.sent == s.sent
    ensures id in Unpublished(s.rows) && Head(t, 0).id == id && t.rows.Keys == s.rows.Keys && Holds(t.rows[id], 0)
    ensures forall r :: r in s.rows ==> t.rows[r].event == s.rows[r].event
    ensures Unpublished(t.rows) == Unpublished(s.rows)
  {
    hide Run, Eligible, Limit, Candidates;
    var ids := SomeSmallest(Candidates(cfg, s, s.now), Limit(cfg));
    LimitIsPositive(cfg);
    id := ids[0];
    more, t := Grow(cfg, run, s, Select(0, s.now, ids));
    more, t := StampAll(cfg, more, t, ids, 0);
    ClaimsExist(cfg, more, t);
    StampedAll(cfg, s, t, ids);
    more, t := CommitSome(cfg, more, t, ids);
  }

  lemma CommitSome(cfg: Config, run: seq<Step>, s: State, ids: seq<RowId>) returns (more: seq<Step>, t: State)
    requires Run(cfg, run) == Some(s) && Stamping(s, ids, |ids|) && ids != [] && s.claims.Keys == s.rows.Keys
    requires forall id :: id in ids ==> id in s.rows && id in s.workers[0].stamps && s.rows[id].status != Published
    ensures Run(cfg, more) == Some(t) && run <= more && t.workers.Keys == {0} && HasHead(t, 0, Unsent) && t.sent == s.sent
    ensures Head(t, 0).id == ids[0] && t.rows.Keys == s.rows.Keys && ids[0] in t.rows && Holds(t.rows[ids[0]], 0)
    ensures forall r :: r in s.rows ==> t.rows[r].event == s.rows[r].event
    ensures Unpublished(t.rows) == Unpublished(s.rows)
  {
    hide Run;
    more, t := Grow(cfg, run, s, CommitClaim(0, true));
    assert forall r :: r in s.rows ==> (t.rows[r].status == Published <==> s.rows[r].status == Published);
  }

  lemma StampedAll(cfg: Config, s: State, t: State, ids: seq<RowId>)
    requires Stamping(t, ids, |ids|) && IsSmallest(ids, Candidates(cfg, s, s.now), Limit(cfg)) && t.rows == s.rows
    requires Candidates(cfg, s, s.now) == Unpublished(s.rows)
    ensures forall id :: id in ids ==> id in t.rows && id in t.workers[0].stamps && t.rows[id].status != Published
  {
    forall id | id in ids ensures id in t.rows && id in t.workers[0].stamps && t.rows[id].status != Published {
      var i :| 0 <= i < |ids| && ids[i] == id;
      assert id in Unpublished(s.rows);
    }
  }

  lemma LimitIsPositive(cfg: Config)
    ensures Limit(cfg) >= 1
  {
  }

  lemma ClaimsExist(cfg: Config, run: seq<Step>, s: State)
    requires Run(cfg, run) == Some(s)
    ensures s.claims.Keys == s.rows.Keys
  {
    RunKeepsInv(cfg, run);
  }

  /** The head of worker 0's batch is delivered, acknowledged and marked. */
  lemma SendHead(cfg: Config, run: seq<Step>, s: State) returns (more: seq<Step>, t: State)
    requires Run(cfg, run) == Some(s) && s.workers.Keys == {0} && HasHead(s, 0, Unsent)
    requires Head(s, 0).id in s.rows && Holds(s.rows[Head(s, 0).id], 0)
    ensures Run(cfg, more) == Some(t) && run <= more && t.sent == s.sent + [Copy(Head(s, 0).id, Head(s, 0).number)]
    ensures Head(s, 0).id in t.rows && t.rows == s.rows[Head(s, 0).id := t.rows[Head(s, 0).id]]
    ensures t.rows[Head(s, 0).id].status == Published && t.rows[Head(s, 0).id].event == s.rows[Head(s, 0).id].event
  {
    hide Run;
    more, t := Grow(cfg, run, s, Produce(0, true, true));
    more, t := Grow(cfg, more, t, MarkPublished(0, true));
  }

  lemma {:induction false} SomeSmallest(s: set<nat>, k: nat) returns (out: seq<nat>)
    ensures IsSmallest(out, s, k) && (s != {} && k > 0 ==> out != [])
    decreases k
  {
    out := [];
    if s != {} && k > 0 {
      var m := MinExists(s);
      var rest := SomeSmallest(s - {m}, k - 1);
      out := [m] + rest;
      assert forall x :: x in s ==> x == m || x in s - {m};
    }
  }

  /**
   From every reachable state the outbox can be drained: some run publishes every row, keeps the events, and hands
   exactly one more copy of each row that was not published to Kafka.
   */
  lemma {:induction false} OutboxDrains(cfg: Config, run: seq<Step>, s: State) returns (more: seq<Step>, t: State)
    requires Run(cfg, run) == Some(s)
    ensures Run(cfg, more) == Some(t) && run <= more && Unpublished(t.rows) == {} && t.rows.Keys == s.rows.Keys
    ensures forall id :: id in s.rows ==> t.rows[id].event == s.rows[id].event
    ensures forall id :: id in s.rows ==>
      Copies(t.sent, id) == Copies(s.sent, id) + if s.rows[id].status != Published then 1 else 0
    decreases |Unpublished(s.rows)|
  {
    hide Run, Ripe;
    more, t := run, s;
    assert forall r :: r in s.rows ==> (r in Unpublished(s.rows) <==> s.rows[r].status != Published);
    if Unpublished(s.rows) != {} {
      more, t := Ripen(cfg, run, s);
      var u: State, id: RowId;
      more, u, id := PublishOne(cfg, more, t);
      OneMoreCopy(s.sent, u.sent, id);
      assert forall r :: r in u.rows ==> (r in Unpublished(u.rows) <==> u.rows[r].status != Published);
      assert |Unpublished(u.rows)| < |Unpublished(s.rows)|;
      more, t := OutboxDrains(cfg, more, u);
    }
  }

  lemma OneMoreCopy(sent: seq<Copy>, more: seq<Copy>, id: RowId)
    requires exists number :: more == sent + [Copy(id, number)]
    ensures forall r :: Copies(more, r) == Copies(sent, r) + if r == id then 1 else 0
  {
    assert more[..|more| - 1] == sent;
  }
}
