/**
 internal/outbox as code: the repository's statements and the publisher's loop, run by one worker while any
 number of other workers take steps between any two of its statements. Every execution is a run of the
 step system, so what OutboxSafety proves holds for it.
 */
module OutboxWorker {
  import opened Basics
  import opened Events
  import opened Outbox
  import opened OutboxSafety

  /** How one event of a batch ended. */
  datatype Outcome = MarkedPublished | MarkLost | RetryStored | RetryLost

  class Database {
    const cfg: Config
    var st: State
    ghost var run: seq<Step>

    constructor (cfg: Config)
      ensures Valid() && this.cfg == cfg && st == Init()
    {
      this.cfg, st, run := cfg, Init(), [];
    }

    ghost predicate Valid()
      reads this
    {
      Run(cfg, run) == Some(st)
    }

    ghost predicate Owns(w: WorkerId, local: Worker)
      reads this
    {
      Valid() && w in st.workers && st.workers[w] == local
    }

    method Do(step: Step)
      requires Valid() && Enabled(cfg, st, step)
      modifies this
      ensures Valid() && run == old(run) + [step] && st == Apply(cfg, old(st), step)
    {
      assert (run + [step])[..|run|] == run;
      st, run := Apply(cfg, st, step), run + [step];
    }

    /** Whatever the other workers, the clock and the order service do before w's next statement. */
    method Others(w: WorkerId)
      requires Valid()
      modifies this
      ensures Valid() && old(run) <= run && old(st.now) <= st.now
      ensures w in st.workers <==> w in old(st.workers)
      ensures w in st.workers ==> st.workers[w] == old(st.workers[w])
    {
    }
  }

  /** publisher.go: the delay before the next attempt. */
  method RetryDelay(attempt: int) returns (d: nat)
    ensures d == Backoff(attempt)
    ensures SECOND <= d <= MAX_DELAY
  {
    var n := if attempt < 1 then 1 else attempt;
    d := SECOND;
    var i := 1;
    while i < n && d < MAX_DELAY
      invariant 1 <= i <= n && d == Pow2(i - 1) * SECOND && d < 2 * MAX_DELAY
      decreases n - i
    {
      d := d * 2;
      i := i + 1;
    }
    Pow2Monotone(i - 1, n - 1);
    if d > MAX_DELAY {
      d := MAX_DELAY;
    }
  }

  lemma {:induction false} Pow2Monotone(a: nat, b: nat)
    requires a <= b
    ensures Pow2(a) <= Pow2(b)
  {
    if a < b { Pow2Monotone(a, b - 1); }
  }

  /** The rows of a running claim exist; those it has stamped carry its stamp. */
  lemma ClaimFacts(cfg: Config, run: seq<Step>, s: State, w: WorkerId)
    requires Run(cfg, run) == Some(s) && w in s.workers && s.workers[w].Claiming?
    ensures var c := s.workers[w];
      && c.clock <= s.now && (forall id :: id in c.ids ==> id in s.rows && id in s.claims)
      && (c.done == |c.ids| ==> forall id :: id in c.ids ==> id in c.stamps)
  {
    RunKeepsInv(cfg, run);
    assert ClaimingOk(cfg, s.rows, s.now, s.workers[w]);
  }

  class Repository {
    const db: Database

    constructor (db: Database)
      ensures this.db == db
    {
      this.db := db;
    }

    /**
     The answer of a healthy database is exactly the SELECT's answer at the moment it ran; otherwise any
     statement may fail or the commit may go unacknowledged, and nothing is returned.
     */
    method Claim(w: WorkerId, healthy: bool) returns (events: seq<Outbox.Open>, ghost asked: seq<Step>, ghost clock: Time)
      requires db.Valid() && w !in db.st.workers
      modifies db
      ensures db.Valid() && old(db.run) <= asked <= db.run
      ensures events == [] ==> w !in db.st.workers
      ensures events != [] ==> db.Owns(w, Dispatching(events, Unsent))
      ensures clock == old(db.st.now)
      ensures healthy || events != [] ==> Answers(db.cfg, asked, clock, events)
    {
      hide Run;
      events, asked := [], db.run;
      var staleClock := db.st.now;
      clock := staleClock;
      db.Others(w);
      asked := db.run;
      var broken: bool := *;
      if !healthy && broken { return; }
      var ids := SmallestFirst(Candidates(db.cfg, db.st, staleClock), Limit(db.cfg));
      if ids == [] {
        SelectAnswers(db.cfg, asked, clock, []);
        return;
      }
      db.Do(Select(w, staleClock, ids));
      var i := 0;
      while i < |ids|
        invariant 0 <= i <= |ids|
        invariant db.Valid() && asked <= db.run
        invariant w in db.st.workers && db.st.workers[w].Claiming? && db.st.workers[w].ids == ids
        invariant db.st.workers[w].done == i
      {
        db.Others(w);
        broken := *;
        if !healthy && broken {
          db.Do(AbortClaim(w));
          return;
        }
        db.Do(Stamp(w));
        i := i + 1;
      }
      db.Others(w);
      ClaimFacts(db.cfg, db.run, db.st, w);
      var found := Returned(db.st, w);
      assert Ids(found) == ids;
      var acked: bool := *;
      db.Do(CommitClaim(w, healthy || acked));
      if healthy || acked {
        events := found;
        SelectAnswers(db.cfg, asked, clock, events);
      }
    }

    /** The row is pending and never failed or due again, or its claim has outlived the lease. */
    static predicate Open(row: Row, now: Time, clock: Time, lease: nat) {
      || (row.status == Pending && row.nextRetryAt.None?)
      || (row.status == Pending && row.nextRetryAt.Some? && row.nextRetryAt.value <= now)
      || (row.status == Claimed && row.lockedAt.Some? && row.lockedAt.value < clock - lease)
    }

    /** Rows that no other claim has locked. */
    static ghost predicate Unlocked(s: State, id: RowId) {
      forall w :: w in s.workers && s.workers[w].Claiming? ==> id !in s.workers[w].ids
    }

    /**
     The events are those of the smallest open, unlocked rows in the state that the run asked leads to: at most a
     batch, and all of them if they are fewer.
     */
    static ghost predicate Answers(cfg: Config, asked: seq<Step>, clock: Time, events: seq<Outbox.Open>) {
      Run(cfg, asked).Some? &&
      var s, out, batch := Run(cfg, asked).value, Ids(events), if cfg.batch > 0 then cfg.batch else 100;
      && (forall i, j :: 0 <= i < j < |out| ==> out[i] < out[j]) && |out| <= batch
      && (forall id :: id in out ==> id in s.rows && Open(s.rows[id], s.now, clock, cfg.lease) && Unlocked(s, id))
      && (forall id :: id in s.rows && Open(s.rows[id], s.now, clock, cfg.lease) && Unlocked(s, id) && id !in out ==>
            |out| == batch && forall i :: 0 <= i < |out| ==> out[i] < id)
    }

    static lemma SelectAnswers(cfg: Config, asked: seq<Step>, clock: Time, events: seq<Outbox.Open>)
      requires Run(cfg, asked).Some?
      requires IsSmallest(Ids(events), Candidates(cfg, Run(cfg, asked).value, clock), Limit(cfg))
      ensures Answers(cfg, asked, clock, events)
    {
      hide Run;
      var s, out := Run(cfg, asked).value, Ids(events);
      forall id ensures id in Candidates(cfg, s, clock) <==>
        id in s.rows && Open(s.rows[id], s.now, clock, cfg.lease) && Unlocked(s, id) {
        if Locked(s, id) { var w :| w in s.workers && Locks(s, w, id); }
        if !Unlocked(s, id) {
          var w :| w in s.workers && s.workers[w].Claiming? && id in s.workers[w].ids;
          assert Locks(s, w, id);
        }
      }
      forall id | id in out ensures id in Candidates(cfg, s, clock) { var i :| 0 <= i < |out| && out[i] == id; }
    }

    static function Ids(events: seq<Outbox.Open>): seq<RowId> {
      seq(|events|, i requires 0 <= i < |events| => events[i].id)
    }

    /** ok is the nil error. A statement that reached the table fails only when the claim was overtaken. */
    method MarkPublished(w: WorkerId, ghost todo: seq<Outbox.Open>, reached: bool) returns (ok: bool)
      requires todo != [] && db.Owns(w, Dispatching(todo, Acked))
      modifies db
      ensures db.Valid() && old(db.run) <= db.run
      ensures if todo[1..] == [] then w !in db.st.workers else db.Owns(w, Dispatching(todo[1..], Unsent))
      ensures ok ==> todo[0].id in db.st.rows && db.st.rows[todo[0].id].status == Published
      ensures reached && !ok ==> todo[0].number < |ClaimsOf(db.st, todo[0].id)| - 1 || Locked(db.st, todo[0].id)
    {
      db.Others(w);
      HeadFacts(db.cfg, db.run, db.st, w);
      if Locked(db.st, todo[0].id) { AdvanceKeepsLock(db.st, w, todo[0].id); }
      var executed := reached && !Locked(db.st, Head(db.st, w).id);
      ok := executed && Holds(db.st.rows[Head(db.st, w).id], w);
      db.Do(Outbox.MarkPublished(w, executed));
    }

    method MarkFailed(w: WorkerId, ghost todo: seq<Outbox.Open>, retryAfter: int, reached: bool) returns (ok: bool)
      requires todo != [] && db.Owns(w, Dispatching(todo, Refused))
      modifies db
      ensures db.Valid() && old(db.run) <= db.run
      ensures if todo[1..] == [] then w !in db.st.workers else db.Owns(w, Dispatching(todo[1..], Unsent))
      ensures ok ==> todo[0].id in db.st.rows && db.st.rows[todo[0].id].status == Pending &&
                     db.st.rows[todo[0].id].retryCount == todo[0].retryRead + 1 &&
                     db.st.rows[todo[0].id].nextRetryAt.Some? &&
                     old(db.st.now) + retryAfter == db.st.rows[todo[0].id].nextRetryAt.value
      ensures reached && !ok ==> todo[0].number < |ClaimsOf(db.st, todo[0].id)| - 1 || Locked(db.st, todo[0].id)
    {
      var clock := db.st.now;
      db.Others(w);
      HeadFacts(db.cfg, db.run, db.st, w);
      if Locked(db.st, todo[0].id) { AdvanceKeepsLock(db.st, w, todo[0].id); }
      var executed := reached && !Locked(db.st, Head(db.st, w).id);
      ok := executed && Holds(db.st.rows[Head(db.st, w).id], w);
      db.Do(Outbox.MarkFailed(w, clock, retryAfter, executed));
    }
  }

  class Publisher {
    const repo: Repository
    const w: WorkerId

    constructor (repo: Repository, w: WorkerId)
      ensures this.repo == repo && this.w == w
    {
      this.repo, this.w := repo, w;
    }

    /** What each outcome leaves behind, whatever happened since. */
    static ghost predicate Settled(s: State, o: Outbox.Open, outcome: Outcome) {
      match outcome
      case MarkedPublished => CopyOf(o) in s.sent && o.id in s.rows && s.rows[o.id].status == Published
      case MarkLost => CopyOf(o) in s.sent
      case RetryStored => o.id in s.rows && s.rows[o.id].retryCount >= o.retryRead + 1
      case RetryLost => true
    }

    /** The row waits the back-off of its new retry_count, counted from an instant between start and now. */
    static ghost predicate WaitsFrom(s: State, o: Outbox.Open, start: Time) {
      o.id in s.rows && s.rows[o.id].status == Pending && s.rows[o.id].retryCount == o.retryRead + 1 &&
      s.rows[o.id].nextRetryAt.Some? &&
      start <= s.rows[o.id].nextRetryAt.value - Backoff(o.retryRead + 1) <= s.now
    }

    /** A later claim of the row exists. */
    static ghost predicate Overtaken(s: State, o: Outbox.Open) {
      o.number < |ClaimsOf(s, o.id)| - 1
    }

    /**
     One event: produce, then mark. A failed produce is marked for retry. A mark that reaches the table is lost
     only when another worker has taken the row over or is doing so.
     */
    method DispatchHead(todo: seq<Outbox.Open>, acked: bool, reached: bool) returns (outcome: Outcome)
      requires todo != [] && repo.db.Owns(w, Dispatching(todo, Unsent))
      modifies repo.db
      ensures repo.db.Valid() && old(repo.db.run) <= repo.db.run
      ensures if todo[1..] == [] then w !in repo.db.st.workers else repo.db.Owns(w, Dispatching(todo[1..], Unsent))
      ensures Settled(repo.db.st, todo[0], outcome)
      ensures acked <==> outcome == MarkedPublished || outcome == MarkLost
      ensures reached && (outcome == RetryLost || outcome == MarkLost) ==>
        Overtaken(repo.db.st, todo[0]) || Locked(repo.db.st, todo[0].id)
      ensures outcome == RetryStored ==> WaitsFrom(repo.db.st, todo[0], old(repo.db.st.now))
    {
      var db := repo.db;
      db.Others(w);
      var delivered: bool := *;
      db.Do(Produce(w, acked, acked || delivered));
      if !acked {
        outcome := Retry(todo, reached);
        return;
      }
      ghost var produced := db.run;
      assert CopyOf(todo[0]) in db.st.sent;
      var ok := repo.MarkPublished(w, todo, reached);
      ExtensionIsLater(db.cfg, produced, db.run);
      return if ok then MarkedPublished else MarkLost;
    }

    /** The branch of a failed produce. */
    method Retry(todo: seq<Outbox.Open>, reached: bool) returns (outcome: Outcome)
      requires todo != [] && repo.db.Owns(w, Dispatching(todo, Refused))
      modifies repo.db
      ensures repo.db.Valid() && old(repo.db.run) <= repo.db.run && old(repo.db.st.now) <= repo.db.st.now
      ensures if todo[1..] == [] then w !in repo.db.st.workers else repo.db.Owns(w, Dispatching(todo[1..], Unsent))
      ensures outcome == RetryStored || outcome == RetryLost
      ensures reached && outcome == RetryLost ==>
        Overtaken(repo.db.st, todo[0]) || Locked(repo.db.st, todo[0].id)
      ensures outcome == RetryStored ==> WaitsFrom(repo.db.st, todo[0], old(repo.db.st.now))
    {
      hide Run, Backoff;
      ghost var failing := repo.db.run;
      var delay := RetryDelay(todo[0].retryRead + 1);
      var stored := repo.MarkFailed(w, todo, delay, reached);
      ExtensionIsLater(repo.db.cfg, failing, repo.db.run);
      outcome := if stored then RetryStored else RetryLost;
    }

    /** Handles every event of one claimed batch, going on after failures; the worker ends idle. */
    method Dispatch(healthy: bool) returns (events: seq<Outbox.Open>, outcomes: seq<Outcome>, ghost asked: seq<Step>, ghost clock: Time)
      requires repo.db.Valid() && w !in repo.db.st.workers
      modifies repo.db
      ensures repo.db.Valid() && old(repo.db.run) <= asked <= repo.db.run && w !in repo.db.st.workers
      ensures clock == old(repo.db.st.now) && (healthy ==> Repository.Answers(repo.db.cfg, asked, clock, events))
      ensures |outcomes| == |events|
      ensures forall i :: 0 <= i < |events| ==> Settled(repo.db.st, events[i], outcomes[i])
    {
      hide Run;
      events, asked, clock := repo.Claim(w, healthy);
      outcomes := [];
      while |outcomes| < |events|
        invariant |outcomes| <= |events|
        invariant repo.db.Valid() && asked <= repo.db.run
        invariant if |outcomes| == |events| then w !in repo.db.st.workers
                  else repo.db.Owns(w, Dispatching(events[|outcomes|..], Unsent))
        invariant forall k :: 0 <= k < |outcomes| ==> Settled(repo.db.st, events[k], outcomes[k])
      {
        ghost var before := repo.db.run;
        var acked: bool, reached: bool := *, *;
        var outcome := DispatchHead(events[|outcomes|..], acked, reached);
        ExtensionIsLater(repo.db.cfg, before, repo.db.run);
        assert events[|outcomes|..][1..] == events[|outcomes| + 1..];
        outcomes := outcomes + [outcome];
      }
    }
  }
}
