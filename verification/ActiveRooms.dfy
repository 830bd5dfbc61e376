/**
 The sharded index of active rooms in internal/store/redisstore/redis.go: writers file a room in one shard, the
 statistics worker reads every shard with a quota and may stop early.
 */
module ActiveRooms {
  import opened Basics

  type RoomId = int
  type Shard = map<RoomId, Time>

  /** The host language's remainder, which has the sign of the dividend. */
  function ShardOf(room: RoomId, shards: int): int
    requires shards > 0
  {
    if room >= 0 then room % shards else -((-room) % shards)
  }

  /** Rooms share a shard exactly when the number of shards divides the difference of their ids. */
  lemma SameShardIff(a: RoomId, b: RoomId, shards: int)
    requires shards > 0 && a >= 0 && b >= 0
    ensures ShardOf(a, shards) == ShardOf(b, shards) <==> exists k :: a - b == k * shards
    ensures 0 <= ShardOf(a, shards) < shards
  {
    assert a == shards * (a / shards) + a % shards && b == shards * (b / shards) + b % shards;
    if a % shards == b % shards {
      assert a - b == (a / shards - b / shards) * shards;
    }
    if k :| a - b == k * shards { SameRemainder(a, b, k, shards); }
  }

  lemma SameRemainder(a: int, b: int, k: int, n: int)
    requires n > 0 && a - b == k * n
    ensures a % n == b % n
  {
    var d := a / n - b / n - k;
    assert a % n - b % n == -d * n by { assert a == n * (a / n) + a % n && b == n * (b / n) + b % n; }
    if d > 0 { TimesAtLeast(d, n); } else if d < 0 { TimesAtLeast(-d, n); }
  }

  lemma TimesAtLeast(d: int, n: int)
    requires d >= 1 && n > 0
    ensures d * n >= n
  {
  }

  /** ceil(limit / shards) */
  function PerShard(limit: int, shards: int): (p: int)
    requires limit > 0 && shards > 0
    ensures p >= 1 && p * shards >= limit > (p - 1) * shards
  {
    Ceiling(limit, shards);
    (limit + shards - 1) / shards
  }

  lemma Ceiling(limit: int, shards: int)
    requires limit > 0 && shards > 0
    ensures var p := (limit + shards - 1) / shards; p >= 1 && p * shards >= limit > (p - 1) * shards
  {
    var n := limit + shards - 1;
    assert n == shards * (n / shards) + n % shards;
  }

  /** ZREMRANGEBYSCORE key -inf cut */
  function Purged(s: Shard, cut: int): Shard {
    map r | r in s && s[r] > cut :: s[r]
  }

  /** The rooms of shards 0..k-1 that are newer than the cut-off. */
  ghost function LiveBelow(index: map<int, Shard>, k: nat, cut: int): set<RoomId> {
    if k == 0 then {} else LiveBelow(index, k - 1, cut) + Live(index, k - 1, cut)
  }

  ghost function Live(index: map<int, Shard>, k: int, cut: int): set<RoomId> {
    if k in index then Purged(index[k], cut).Keys else {}
  }

  /** Everything fits: no shard exceeds its quota and all of them together stay within the limit. */
  ghost predicate Fits(index: map<int, Shard>, shards: nat, cut: int, limit: int)
    requires limit > 0 && shards > 0
  {
    && |LiveBelow(index, shards, cut)| <= limit
    && forall k :: 0 <= k < shards ==> |Live(index, k, cut)| <= PerShard(limit, shards)
  }

  /** Every room sits in the shard its id selects. */
  ghost predicate Filed(index: map<int, Shard>, shards: int)
    requires shards > 0
  {
    forall k, r :: k in index && r in index[k] ==> k == ShardOf(r, shards)
  }

  lemma {:induction false} LiveBelowIff(index: map<int, Shard>, shards: int, k: nat, cut: int, r: RoomId)
    requires shards > 0 && Filed(index, shards)
    ensures r in LiveBelow(index, k, cut) <==> 0 <= ShardOf(r, shards) < k && r in Live(index, ShardOf(r, shards), cut)
  {
    if k > 0 { LiveBelowIff(index, shards, k - 1, cut, r); }
  }

  ghost function Range<T>(s: seq<T>): set<T> {
    set i | 0 <= i < |s| :: s[i]
  }

  lemma RangeAppend<T>(s: seq<T>, x: T)
    ensures Range(s + [x]) == Range(s) + {x}
  {
    assert (s + [x])[|s|] == x;
    assert forall i :: 0 <= i < |s| ==> (s + [x])[i] == s[i];
  }

  ghost predicate Distinct<T>(s: seq<T>) {
    forall i, j :: 0 <= i < j < |s| ==> s[i] != s[j]
  }

  lemma {:induction false} RangeSize<T>(s: seq<T>)
    requires Distinct(s)
    ensures |Range(s)| == |s|
  {
    if s != [] {
      var front, last := s[..|s| - 1], s[|s| - 1];
      RangeSize(front);
      RangeAppend(front, last);
      assert s == front + [last];
    }
  }

  // ----- what one scan returns -----

  /** What the loops guarantee of their result, shard by shard. */
  ghost predicate Answer(out: seq<RoomId>, index: map<int, Shard>, shards: nat, k: nat, cut: int, limit: int)
    requires limit > 0 && shards > 0
  {
    && Distinct(out) && |out| <= limit && (forall i :: 0 <= i < |out| ==> out[i] > 0)
    && Range(out) <= LiveBelow(index, k, cut)
    && (forall j :: 0 <= j < k ==> |Live(index, j, cut) * Range(out)| <= PerShard(limit, shards))
    && (|out| < limit ==> forall j :: 0 <= j < k ==> Covered(Range(out), index, j, cut, PerShard(limit, shards)))
  }

  /** A shard within its quota is there in full; of any other, what is missing is not newer than what is there. */
  ghost predicate Covered(got: set<RoomId>, index: map<int, Shard>, j: int, cut: int, quota: int) {
    && (|Live(index, j, cut)| <= quota ==> forall r :: r in Live(index, j, cut) && r > 0 ==> r in got)
    && forall r, q :: r in Live(index, j, cut) && r > 0 && r !in got && q in Live(index, j, cut) && q in got ==>
         index[j][q] >= index[j][r]
  }

  lemma {:induction false} CoveredIsAll(out: seq<RoomId>, index: map<int, Shard>, k: nat, cut: int, quota: int)
    requires forall j :: 0 <= j < k ==> |Live(index, j, cut)| <= quota && Covered(Range(out), index, j, cut, quota)
    requires forall r :: r in LiveBelow(index, k, cut) ==> r > 0
    ensures LiveBelow(index, k, cut) <= Range(out)
  {
    if k > 0 {
      assert LiveBelow(index, k, cut) == LiveBelow(index, k - 1, cut) + Live(index, k - 1, cut);
      CoveredIsAll(out, index, k - 1, cut, quota);
      assert Covered(Range(out), index, k - 1, cut, quota);
      forall r | r in LiveBelow(index, k, cut) ensures r in Range(out) {
        if r in Live(index, k - 1, cut) { assert r > 0; }
      }
    }
  }

  lemma {:induction false} LiveIsBelow(index: map<int, Shard>, j: nat, k: nat, cut: int)
    requires j < k
    ensures Live(index, j, cut) <= LiveBelow(index, k, cut)
  {
    if j < k - 1 { LiveIsBelow(index, j, k - 1, cut); }
  }

  lemma FitsIsComplete(out: seq<RoomId>, index: map<int, Shard>, shards: nat, cut: int, limit: int)
    requires limit > 0 && shards > 0 && Answer(out, index, shards, shards, cut, limit)
    requires forall r :: r in LiveBelow(index, shards, cut) ==> r > 0
    requires Fits(index, shards, cut, limit)
    ensures Range(out) == LiveBelow(index, shards, cut)
  {
    RangeSize(out);
    SubsetSize(Range(out), LiveBelow(index, shards, cut));
    if |out| < limit { CoveredIsAll(out, index, shards, cut, PerShard(limit, shards)); }
  }

  lemma CompleteFits(out: seq<RoomId>, index: map<int, Shard>, shards: nat, cut: int, limit: int)
    requires limit > 0 && shards > 0 && Answer(out, index, shards, shards, cut, limit)
    requires Range(out) == LiveBelow(index, shards, cut)
    ensures Fits(index, shards, cut, limit)
  {
    RangeSize(out);
    forall k | 0 <= k < shards ensures |Live(index, k, cut)| <= PerShard(limit, shards) {
      LiveIsBelow(index, k, shards, cut);
      assert Live(index, k, cut) * Range(out) == Live(index, k, cut);
    }
  }

  /** A scan misses no active room exactly when the total fits the limit and every shard fits its quota. */
  lemma CompleteIff(out: seq<RoomId>, index: map<int, Shard>, shards: nat, cut: int, limit: int)
    requires limit > 0 && shards > 0 && Answer(out, index, shards, shards, cut, limit)
    requires forall r :: r in LiveBelow(index, shards, cut) ==> r > 0
    ensures Range(out) == LiveBelow(index, shards, cut) <==> Fits(index, shards, cut, limit)
  {
    if Fits(index, shards, cut, limit) { FitsIsComplete(out, index, shards, cut, limit); }
    if Range(out) == LiveBelow(index, shards, cut) { CompleteFits(out, index, shards, cut, limit); }
  }

  /** Two rooms in one shard of two: the total fits a limit of two, one shard does not fit its quota. */
  lemma SkewLosesRooms()
    ensures var index := map[0 := map[2 := 10, 4 := 20]];
      |LiveBelow(index, 2, 0)| <= 2 && !Fits(index, 2, 0, 2)
  {
    var index: map<int, Shard> := map[0 := map[2 := 10, 4 := 20]];
    assert Live(index, 0, 0) == {2, 4} && Live(index, 1, 0) == {};
    assert LiveBelow(index, 1, 0) == LiveBelow(index, 0, 0) + Live(index, 0, 0);
    assert LiveBelow(index, 2, 0) == {2, 4};
  }

  /** Rooms of one shard among 1..n are at least a shard count apart, so there are at most ceil(n / shards) of them. */
  lemma {:induction false} ShardOfRow(s: set<RoomId>, n: int, shards: int, k: int)
    requires shards > 0 && n > -shards && forall r :: r in s ==> 1 <= r <= n && ShardOf(r, shards) == k
    ensures |s| * shards <= n + shards - 1
    decreases if n < 0 then 0 else n
  {
    if n <= 0 {
      assert s == {};
    } else if n in s {
      forall r | r in s - {n} ensures r <= n - shards {
        SameShardIff(n, r, shards);
        var d :| n - r == d * shards;
        if d >= 1 { TimesAtLeast(d, shards); } else if d <= -1 { TimesAtLeast(-d, shards); }
      }
      ShardOfRow(s - {n}, n - shards, shards, k);
      assert |s| == |s - {n}| + 1;
    } else {
      ShardOfRow(s, n - 1, shards, k);
    }
  }

  /** Rooms with consecutive ids spread evenly: if they are within the limit, a scan returns all of them. */
  lemma RoomsInARowFit(index: map<int, Shard>, shards: nat, cut: int, limit: int, n: nat)
    requires limit > 0 && shards > 0 && Filed(index, shards) && n <= limit
    requires forall r :: r in LiveBelow(index, shards, cut) ==> 1 <= r <= n
    ensures Fits(index, shards, cut, limit)
  {
    forall k | 0 <= k < shards ensures |Live(index, k, cut)| <= PerShard(limit, shards) {
      LiveIsBelow(index, k, shards, cut);
      ShardOfRow(Live(index, k, cut), n, shards, k);
      WithinQuota(|Live(index, k, cut)|, limit, shards);
    }
    RowSize(LiveBelow(index, shards, cut), n);
  }

  lemma WithinQuota(size: nat, limit: int, shards: int)
    requires limit > 0 && shards > 0 && size * shards <= limit + shards - 1
    ensures size <= PerShard(limit, shards)
  {
    var p := PerShard(limit, shards);
    if size > p { Scale(p + 1, size, shards); }
  }

  lemma Scale(a: int, b: int, n: int)
    requires a <= b && n > 0
    ensures a * n <= b * n
  {
  }

  lemma {:induction false} RowSize(s: set<int>, n: nat)
    requires forall r :: r in s ==> 1 <= r <= n
    ensures |s| <= n
  {
    if n == 0 {
      assert forall r :: r !in s;
      assert s == {};
    } else {
      RowSize(s - {n}, n - 1);
      if n in s { assert |s| == |s - {n}| + 1; } else { assert s - {n} == s; }
    }
  }

  /** The scan of the rooms 1..n, n within the limit, is complete. */
  lemma RoomsInARowAreFound(out: seq<RoomId>, index: map<int, Shard>, shards: nat, cut: int, limit: int, n: nat)
    requires limit > 0 && shards > 0 && Filed(index, shards) && n <= limit
    requires Answer(out, index, shards, shards, cut, limit)
    requires forall r :: r in LiveBelow(index, shards, cut) <==> 1 <= r <= n
    ensures forall r :: 1 <= r <= n ==> r in Range(out)
  {
    RoomsInARowFit(index, shards, cut, limit, n);
    CompleteIff(out, index, shards, cut, limit);
  }

  lemma Member<T>(s: set<T>) returns (x: T)
    requires s != {}
    ensures x in s
  {
    x :| x in s;
  }

  lemma MaxExists(s: Shard, rest: set<RoomId>) returns (m: RoomId)
    requires rest != {} && rest <= s.Keys
    ensures m in rest && forall q :: q in rest ==> s[q] <= s[m]
  {
    m := Member(rest);
    if rest != {m} {
      var other := MaxExists(s, rest - {m});
      assert rest == (rest - {m}) + {m};
      if s[other] > s[m] { m := other; }
    }
  }

  /** The members picked so far are the newest ones, newest first. */
  ghost predicate Picked(s: Shard, raw: seq<RoomId>, rest: set<RoomId>) {
    && Range(raw) !! rest && Range(raw) + rest == s.Keys && Distinct(raw)
    && (forall i, j :: 0 <= i < j < |raw| ==> s[raw[i]] >= s[raw[j]])
    && (forall i, r :: 0 <= i < |raw| && r in rest ==> s[raw[i]] >= s[r])
  }

  lemma PickNext(s: Shard, raw: seq<RoomId>, rest: set<RoomId>, next: RoomId)
    requires Picked(s, raw, rest) && next in rest && forall q :: q in rest ==> s[q] <= s[next]
    ensures Picked(s, raw + [next], rest - {next})
  {
    RangeAppend(raw, next);
    assert forall i :: 0 <= i < |raw| ==> raw[i] in Range(raw);
  }

  /** ZREVRANGE key 0 count-1: the newest members, ties in any order. */
  method RevRange(s: Shard, count: nat) returns (raw: seq<RoomId>)
    ensures Distinct(raw) && Range(raw) <= s.Keys && |raw| <= count
    ensures |raw| < count ==> Range(raw) == s.Keys
    ensures |s| <= count ==> Range(raw) == s.Keys
    ensures forall i, j :: 0 <= i < j < |raw| ==> s[raw[i]] >= s[raw[j]]
    ensures forall i, r :: 0 <= i < |raw| && r in s && r !in Range(raw) ==> s[raw[i]] >= s[r]
  {
    raw := [];
    var rest := s.Keys;
    while |raw| < count && rest != {}
      invariant |raw| <= count && rest <= s.Keys && Picked(s, raw, rest)
      decreases rest
    {
      ghost var m := MaxExists(s, rest);
      var next :| next in rest && forall q :: q in rest ==> s[q] <= s[next];
      PickNext(s, raw, rest, next);
      raw, rest := raw + [next], rest - {next};
    }
    RangeSize(raw);
    SubsetSize(Range(raw), s.Keys);
  }

  /** The inner loop: append the members that are room ids, up to the limit. */
  method AppendRooms(out: seq<RoomId>, raw: seq<RoomId>, limit: int) returns (more: seq<RoomId>)
    requires Distinct(raw) && Distinct(out) && |out| < limit && Range(out) !! Range(raw)
    requires forall i :: 0 <= i < |out| ==> out[i] > 0
    ensures Distinct(more) && |more| <= limit && Range(out) <= Range(more)
    ensures forall i :: 0 <= i < |more| ==> more[i] > 0
    ensures Range(more) <= Range(out) + Range(raw)
    ensures |more| < limit ==> forall r :: r in Range(raw) && r > 0 ==> r in Range(more)
  {
    more := out;
    var i := 0;
    while i < |raw|
      invariant 0 <= i <= |raw| && |more| < limit && Distinct(more)
      invariant forall k :: 0 <= k < |more| ==> more[k] > 0
      invariant Range(out) <= Range(more) <= Range(out) + Range(raw[..i])
      invariant forall k :: 0 <= k < i && raw[k] > 0 ==> raw[k] in Range(more)
    {
      RangeAppend(raw[..i], raw[i]);
      assert raw[..i + 1] == raw[..i] + [raw[i]];
      if raw[i] > 0 {
        RangeAppend(more, raw[i]);
        more := more + [raw[i]];
        if |more| == limit { break; }
      }
      i := i + 1;
    }
  }

  /** What ZREVRANGE returns: at most `quota` members, the newest ones. */
  ghost predicate Newest(raw: set<RoomId>, live: set<RoomId>, scores: Shard, quota: nat)
  {
    && raw <= live <= scores.Keys && |raw| <= quota
    && (|live| <= quota ==> raw == live)
    && forall q, r :: q in raw && r in live && r !in raw ==> scores[q] >= scores[r]
  }

  /** The rooms of different shards are different. */
  lemma ShardsApart(index: map<int, Shard>, shards: nat, j: int, k: nat, cut: int)
    requires shards > 0 && Filed(index, shards)
    ensures j != k ==> Live(index, j, cut) !! Live(index, k, cut)
    ensures LiveBelow(index, k, cut) !! Live(index, k, cut)
  {
    forall r | r in Live(index, k, cut) ensures j != k ==> r !in Live(index, j, cut) {
      assert ShardOf(r, shards) == k;
    }
    forall r | r in LiveBelow(index, k, cut) ensures r !in Live(index, k, cut) {
      LiveBelowIff(index, shards, k, cut, r);
    }
  }

  /** The answer so far, `got`, against shard `j` when the rooms `raw` of shard `k` are added. */
  lemma AddShard(got: set<RoomId>, more: set<RoomId>, raw: set<RoomId>, index: map<int, Shard>,
                 shards: nat, j: nat, k: nat, cut: int, quota: nat)
    requires shards > 0 && Filed(index, shards) && j <= k
    requires got <= more <= got + raw && got <= LiveBelow(index, k, cut)
    requires Newest(raw, Live(index, k, cut), if k in index then index[k] else map[], quota)
    requires j < k ==> |Live(index, j, cut) * got| <= quota
    ensures |Live(index, j, cut) * more| <= quota
    ensures (forall r :: r in raw && r > 0 ==> r in more) && (j < k ==> Covered(got, index, j, cut, quota)) ==>
      Covered(more, index, j, cut, quota)
  {
    ShardsApart(index, shards, j, k, cut);
    if j < k {
      assert Live(index, j, cut) * more == Live(index, j, cut) * got;
    } else {
      SubsetSize(Live(index, k, cut) * more, raw);
    }
  }

  /** One turn of the outer loop: the answer grows by shard `k`. */
  lemma TurnKeepsAnswer(out: seq<RoomId>, more: seq<RoomId>, raw: seq<RoomId>, index: map<int, Shard>,
                        shards: nat, k: nat, cut: int, limit: int)
    requires limit > 0 && k < shards && Filed(index, shards)
    requires Answer(out, index, shards, k, cut, limit) && |out| < limit
    requires Distinct(more) && |more| <= limit && Range(out) <= Range(more) && forall i :: 0 <= i < |more| ==> more[i] > 0
    requires Range(more) <= Range(out) + Range(raw)
    requires |more| < limit ==> forall r :: r in Range(raw) && r > 0 ==> r in Range(more)
    requires Newest(Range(raw), Live(index, k, cut), if k in index then index[k] else map[], PerShard(limit, shards))
    ensures Answer(more, index, shards, k + 1, cut, limit)
  {
    var quota := PerShard(limit, shards);
    assert LiveBelow(index, k + 1, cut) == LiveBelow(index, k, cut) + Live(index, k, cut);
    forall j | 0 <= j < k + 1
      ensures |Live(index, j, cut) * Range(more)| <= quota
      ensures |more| < limit ==> Covered(Range(more), index, j, cut, quota)
    {
      AddShard(Range(out), Range(more), Range(raw), index, shards, j, k, cut, quota);
    }
  }

  /** What a shard lists is new to the answer. */
  lemma RawIsNew(out: seq<RoomId>, was: map<int, Shard>, shards: nat, k: nat, cut: int, limit: int, raw: set<RoomId>)
    requires limit > 0 && shards > 0 && Filed(was, shards) && Answer(out, was, shards, k, cut, limit)
    requires raw <= Live(was, k, cut)
    ensures Range(out) !! raw && Distinct(out) && forall i :: 0 <= i < |out| ==> out[i] > 0
  {
    ShardsApart(was, shards, k, k, cut);
  }

  lemma EmptyAnswer(index: map<int, Shard>, shards: nat, cut: int, limit: int)
    requires limit > 0 && shards > 0
    ensures Answer([], index, shards, 0, cut, limit)
  {
  }

  /** Two indexes with the same shards below `k`. */
  ghost predicate SameBelow(a: map<int, Shard>, b: map<int, Shard>, k: nat) {
    forall j :: 0 <= j < k ==> (j in a <==> j in b) && (j in a ==> a[j] == b[j])
  }

  lemma {:induction false} SameLiveBelow(a: map<int, Shard>, b: map<int, Shard>, k: nat, cut: int)
    requires SameBelow(a, b, k)
    ensures LiveBelow(a, k, cut) == LiveBelow(b, k, cut)
  {
    if k > 0 {
      SameLiveBelow(a, b, k - 1, cut);
      assert Live(a, k - 1, cut) == Live(b, k - 1, cut);
    }
  }

  /** The answer so far depends only on the shards that had their turn. */
  lemma SameAnswer(out: seq<RoomId>, a: map<int, Shard>, b: map<int, Shard>, shards: nat, k: nat, cut: int, limit: int)
    requires limit > 0 && shards > 0 && SameBelow(a, b, k) && Answer(out, a, shards, k, cut, limit)
    ensures Answer(out, b, shards, k, cut, limit)
  {
    SameLiveBelow(a, b, k, cut);
    forall j | 0 <= j < k
      ensures Live(b, j, cut) == Live(a, j, cut)
      ensures Covered(Range(out), a, j, cut, PerShard(limit, shards)) ==> Covered(Range(out), b, j, cut, PerShard(limit, shards))
    {
      assert Live(b, j, cut) == Live(a, j, cut);
    }
  }

  /** Each shard as the state numbered `at[k]` had it. */
  ghost function Seen(past: seq<map<int, Shard>>, at: seq<nat>): map<int, Shard> {
    map k | 0 <= k < |at| && at[k] < |past| && k in past[at[k]] :: past[at[k]][k]
  }

  lemma SeenIsFiled(past: seq<map<int, Shard>>, at: seq<nat>, shards: int)
    requires shards > 0 && forall i :: 0 <= i < |past| ==> Filed(past[i], shards)
    ensures Filed(Seen(past, at), shards)
  {
  }

  lemma SeenGrows(past: seq<map<int, Shard>>, more: seq<map<int, Shard>>, at: seq<nat>, later: seq<nat>)
    requires past <= more && at <= later && forall k :: 0 <= k < |at| ==> at[k] < |past|
    ensures SameBelow(Seen(past, at), Seen(more, later), |at|)
  {
  }

  lemma {:induction false} LiveBelowGrows(index: map<int, Shard>, j: nat, k: nat, cut: int)
    requires j <= k
    ensures LiveBelow(index, j, cut) <= LiveBelow(index, k, cut)
  {
    if j < k { LiveBelowGrows(index, j, k - 1, cut); }
  }

  /** The outer loop may stop before the last shard, because the limit is reached. */
  lemma StopKeepsAnswer(out: seq<RoomId>, index: map<int, Shard>, shards: nat, k: nat, cut: int, limit: int)
    requires limit > 0 && shards > 0 && k <= shards && Filed(index, shards)
    requires Answer(out, index, shards, k, cut, limit) && (k == shards || |out| == limit)
    ensures Answer(out, index, shards, shards, cut, limit)
  {
    LiveBelowGrows(index, k, shards, cut);
    forall j | k <= j < shards ensures |Live(index, j, cut) * Range(out)| <= PerShard(limit, shards) {
      ShardsApart(index, shards, j, j, cut);
      LiveBelowGrows(index, k, j, cut);
      assert Live(index, j, cut) * Range(out) == {};
    }
  }

  lemma ResultsAreLive(out: seq<RoomId>, index: map<int, Shard>, shards: nat, cut: int, limit: int)
    requires limit > 0 && shards > 0 && Filed(index, shards) && Answer(out, index, shards, shards, cut, limit)
    ensures AllActive(out, index, shards, cut)
  {
    forall i | 0 <= i < |out| ensures out[i] in Live(index, ShardOf(out[i], shards), cut) {
      assert out[i] in Range(out);
      LiveBelowIff(index, shards, shards, cut, out[i]);
    }
  }

  lemma PurgedTwice(s: Shard, cut: int)
    requires forall r :: r in s ==> s[r] > cut
    ensures Purged(s, cut).Keys == s.Keys
  {
    assert forall r :: r in Purged(s, cut) <==> r in s;
  }

  lemma PurgedNewest(raw: set<RoomId>, s: Shard, cut: int, quota: nat)
    requires Newest(raw, Purged(s, cut).Keys, Purged(s, cut), quota)
    ensures Newest(raw, Purged(s, cut).Keys, s, quota)
  {
  }

  method NewestOf(s: Shard, quota: nat) returns (raw: seq<RoomId>)
    ensures Distinct(raw) && Newest(Range(raw), s.Keys, s, quota)
  {
    raw := RevRange(s, quota);
    RangeSize(raw);
  }

  /** The store with its index; `touched` and `purged` remember who was active and what was dropped. */
  class Store {
    const shards: nat
    var index: map<int, Shard>
    ghost var touched: map<RoomId, Time>
    ghost var purged: map<int, int>
    /** Every state of the index so far, the present one last. */
    ghost var past: seq<map<int, Shard>>

    constructor (shards: int)
      ensures Valid() && touched == map[] && purged == map[]
      ensures this.shards == if shards <= 0 then 16 else shards
    {
      this.shards := if shards <= 0 then 16 else shards;
      index, touched, purged, past := map[], map[], map[], [map[]];
    }

    ghost predicate Valid()
      reads this
    {
      && shards > 0 && Filed(index, shards)
      && (forall k, r :: k in index && r in index[k] ==> r in touched && touched[r] == index[k][r])
      && (forall r :: r in touched && Kept(r) ==> ShardOf(r, shards) in index && r in index[ShardOf(r, shards)])
      && past != [] && past[|past| - 1] == index && (forall i :: 0 <= i < |past| ==> Filed(past[i], shards))
    }

    /** No purge of the room's shard went as far as its last activity. */
    ghost predicate Kept(r: RoomId)
      requires r in touched && shards > 0
      reads this
    {
      ShardOf(r, shards) in purged ==> purged[ShardOf(r, shards)] < touched[r]
    }

    /** What a scan looks for: the rooms touched after the cut-off, unless an earlier scan dropped them. */
    lemma LiveIsActive(since: int, r: RoomId)
      requires Valid() && r >= 0
      ensures r in LiveBelow(index, shards, since) ==> r in touched && touched[r] > since
      ensures r in touched && touched[r] > since && Kept(r) ==> r in LiveBelow(index, shards, since)
    {
      LiveBelowIff(index, shards, shards, since, r);
    }

    /** The ZADD shared by AddLikes, RestoreLikeDelta and TouchViewer; a late writer may carry an older clock. */
    method Touch(room: RoomId, now: Time)
      requires Valid()
      modifies this
      ensures Valid() && touched == old(touched)[room := now] && purged == old(purged) && old(past) <= past
      ensures ShardOf(room, shards) in index && room in index[ShardOf(room, shards)]
    {
      var k := ShardOf(room, shards);
      var s: Shard := if k in index then index[k] else map[];
      index := index[k := s[room := now]];
      touched, past := touched[room := now], past + [index];
    }

    /** Writers and other scans at work between two commands of this one. */
    method Others()
      requires Valid()
      modifies this
      ensures Valid() && old(past) <= past
    {
    }

    /** One transaction of ActiveRooms: purge a shard and list its newest members. */
    method Scan(k: int, cut: int, quota: nat) returns (raw: seq<RoomId>)
      requires Valid()
      modifies this
      ensures Valid() && past == old(past) + [index] && touched == old(touched)
      ensures forall j :: Live(index, j, cut) == Live(old(index), j, cut)
      ensures forall j :: j != k ==> (j in index <==> j in old(index)) && (j in index ==> index[j] == old(index)[j])
      ensures Distinct(raw)
      ensures Newest(Range(raw), Live(old(index), k, cut), if k in old(index) then old(index)[k] else map[], quota)
    {
      hide Newest, Distinct;
      var was: Shard := if k in index then index[k] else map[];
      raw := NewestOf(Purged(was, cut), quota);
      PurgedNewest(Range(raw), was, cut, quota);
      Purge(k, cut);
    }

    /** ZREMRANGEBYSCORE on one shard: nothing newer than the cut-off goes. */
    method Purge(k: int, cut: int)
      requires Valid()
      modifies this
      ensures Valid() && past == old(past) + [index] && touched == old(touched)
      ensures forall j :: Live(index, j, cut) == Live(old(index), j, cut)
      ensures forall j :: j != k ==> (j in index <==> j in old(index)) && (j in index ==> index[j] == old(index)[j])
    {
      if k in index {
        PurgedTwice(Purged(index[k], cut), cut);
        index := index[k := Purged(index[k], cut)];
      }
      purged := purged[k := if k in purged && purged[k] > cut then purged[k] else cut];
      past := past + [index];
    }

    /**
     Rooms active after the cut-off `since`, at most `limit` of them, while other calls go on. `at` numbers the
     state of the index at each shard's turn, and the last one for shards that had no turn: against these shards
     the answer is as if one scan had seen them all. A Redis failure ends the scan with an error.
     */
    method ActiveRooms(since: int, limit: int) returns (ok: bool, out: seq<RoomId>, ghost at: seq<nat>)
      requires Valid()
      modifies this
      ensures Valid() && old(past) <= past
      ensures ok ==> |at| == shards && InOrder(at, |old(past)| - 1, |past|)
      ensures ok ==> Answer(out, Seen(past, at), shards, shards, since, if limit <= 0 then 1000 else limit)
      ensures ok ==> AllActive(out, Seen(past, at), shards, since)
    {
      hide Answer, LiveBelow, Live, Newest, Seen, AllActive, Padded;
      var max := if limit <= 0 then 1000 else limit;
      out, at := [], [];
      var perShard := PerShard(max, shards);
      var shard := 0;
      EmptyAnswer(Seen(past, at), shards, since, max);
      while shard < shards && |out| < max
        invariant shard <= shards && Valid() && old(past) <= past && |at| == shard && InOrder(at, |old(past)| - 1, |past|)
        invariant Answer(out, Seen(past, at), shards, shard, since, max) && |out| <= max
      {
        ok, out, at := Turn(shard, since, max, perShard, out, at, |old(past)| - 1);
        if !ok { return false, [], []; }
        shard := shard + 1;
      }
      ghost var all := Padded(at, shards, |past| - 1);
      PaddedInOrder(at, shards, |old(past)| - 1, |past|);
      SeenGrows(past, past, at, all);
      SameAnswer(out, Seen(past, at), Seen(past, all), shards, shard, since, max);
      SeenIsFiled(past, all, shards);
      StopKeepsAnswer(out, Seen(past, all), shards, shard, since, max);
      ResultsAreLive(out, Seen(past, all), shards, since, max);
      ok, at := true, all;
    }

    /** The body of the outer loop: other calls, then the shard's transaction. */
    method Turn(k: nat, cut: int, limit: int, quota: nat, out: seq<RoomId>, ghost at: seq<nat>, ghost from: nat)
      returns (ok: bool, more: seq<RoomId>, ghost at': seq<nat>)
      requires Valid() && k < shards && limit > 0 && quota == PerShard(limit, shards) && |at| == k
      requires from < |past| && InOrder(at, from, |past|)
      requires |out| < limit && Answer(out, Seen(past, at), shards, k, cut, limit)
      modifies this
      ensures Valid() && old(past) <= past
      ensures ok ==> |at'| == k + 1 && InOrder(at', from, |past|)
      ensures ok ==> Answer(more, Seen(past, at'), shards, k + 1, cut, limit) && |more| <= limit
    {
      hide Answer, LiveBelow, Live, Newest, Seen, Filed;
      ghost var before := past;
      Others();
      at' := at + [|past| - 1];
      ghost var turn := past;
      var failed: bool := *;
      var raw := Scan(k, cut, quota);
      if failed { return false, [], []; }
      SeenGrows(before, past, at, at');
      SeenAtTurn(past, at', turn, k);
      ghost var seen := Seen(past, at');
      SeenIsFiled(past, at', shards);
      SameAnswer(out, Seen(before, at), seen, shards, k, cut, limit);
      more := Extend(seen, k, cut, limit, quota, out, raw);
      ok := true;
    }

    /** Appending what a shard's turn listed. */
    method Extend(ghost seen: map<int, Shard>, ghost k: nat, ghost cut: int, limit: int, ghost quota: nat,
                  out: seq<RoomId>, raw: seq<RoomId>)
      returns (more: seq<RoomId>)
      requires limit > 0 && k < shards && quota == PerShard(limit, shards) && |out| < limit && Filed(seen, shards)
      requires Answer(out, seen, shards, k, cut, limit) && Distinct(raw)
      requires Newest(Range(raw), Live(seen, k, cut), if k in seen then seen[k] else map[], quota)
      ensures Answer(more, seen, shards, k + 1, cut, limit) && |more| <= limit
    {
      NewestIsLive(Range(raw), Live(seen, k, cut), if k in seen then seen[k] else map[], quota);
      hide Answer, LiveBelow, Live, Newest, Filed;
      RawIsNew(out, seen, shards, k, cut, limit, Range(raw));
      more := AppendRooms(out, raw, limit);
      TurnKeepsAnswer(out, more, raw, seen, shards, k, cut, limit);
    }
  }

  lemma NewestIsLive(raw: set<RoomId>, live: set<RoomId>, scores: Shard, quota: nat)
    requires Newest(raw, live, scores, quota)
    ensures raw <= live
  {
  }

  /** At its turn a shard is seen as the index then had it. */
  lemma SeenAtTurn(past: seq<map<int, Shard>>, at: seq<nat>, turn: seq<map<int, Shard>>, k: nat)
    requires |at| == k + 1 && turn != [] && turn <= past && at[k] == |turn| - 1
    ensures forall cut :: Live(Seen(past, at), k, cut) == Live(turn[|turn| - 1], k, cut)
    ensures k in Seen(past, at) <==> k in turn[|turn| - 1]
    ensures k in Seen(past, at) ==> Seen(past, at)[k] == turn[|turn| - 1][k]
  {
  }

  /** Shards that had no turn are seen in the last state. */
  function Padded(at: seq<nat>, shards: nat, last: nat): (all: seq<nat>)
    requires |at| <= shards
  {
    at + seq(shards - |at|, _ => last)
  }

  lemma PaddedInOrder(at: seq<nat>, shards: nat, from: nat, n: nat)
    requires |at| <= shards && from < n && InOrder(at, from, n)
    ensures |Padded(at, shards, n - 1)| == shards && at <= Padded(at, shards, n - 1)
    ensures InOrder(Padded(at, shards, n - 1), from, n)
  {
  }

  /** Turns follow each other, from the state numbered `from` on. */
  ghost predicate InOrder(at: seq<nat>, from: nat, n: nat) {
    && (forall i :: 0 <= i < |at| ==> from <= at[i] < n)
    && (forall i, j :: 0 <= i < j < |at| ==> at[i] <= at[j])
  }

  /** Every room returned is in its shard with an activity after the cut-off. */
  ghost predicate AllActive(out: seq<RoomId>, index: map<int, Shard>, shards: int, cut: int)
    requires shards > 0
  {
    forall i :: 0 <= i < |out| ==>
      var k := ShardOf(out[i], shards); k in index && out[i] in index[k] && index[k][out[i]] > cut
  }
}
