/** The five memory tools of src/lib/tools/memory.ts over the module-level
    `memories` map. Each tool is a pure function from the current map (and,
    where the source reads the clock, the current time in milliseconds) to
    the object it returns and the map it leaves behind. */
module MemoryTools {
  import opened Results
  import opened Strings
  import OrderedMap

  /** One stored memory. `timestamp` and `updatedAt` are instants in
      milliseconds since the epoch (the source keeps their ISO renderings). */
  datatype MemoryData = MemoryData(
    id: string,
    userId: string,
    memory: string,
    tags: seq<string>,
    timestamp: nat,
    updatedAt: Option<nat>)

  /** The `memories` map: memory id to record, in insertion order. */
  type Store = OrderedMap.Map<string, MemoryData>

  /** What a writing tool returns, and the store it leaves. */
  datatype Written = Written(status: Status, store: Store)

  const MemoryNotFound := "Memory not found"

  /** Number of records `list_memories` returns when no limit (or 0) is given. */
  const DefaultListLimit := 50

  /** The id `add_memories` generates: `${userId}_${Date.now()}`. */
  function MemoryId(userId: string, now: nat): string {
    userId + "_" + Decimal(now)
  }

  /** Splits an id at its last underscore into user id and instant; the
      inverse of `MemoryId`. */
  function ParseMemoryId(id: string): Option<(string, nat)> {
    match LastIndexOf(id, '_')
    case None => None
    case Some(i) =>
      var digits := id[i + 1..];
      if |digits| > 0 && forall j :: 0 <= j < |digits| ==> IsDigit(digits[j])
      then Some((id[..i], ParseDecimal(digits)))
      else None
  }

  lemma {:induction false} LastIndexOfSplit(a: string, b: string, c: char)
    requires c !in b
    ensures LastIndexOf(a + [c] + b, c) == Some(|a|)
    decreases |b|
  {
    var s := a + [c] + b;
    if |b| > 0 {
      assert s[..|s| - 1] == a + [c] + b[..|b| - 1];
      LastIndexOfSplit(a, b[..|b| - 1], c);
    }
  }

  /** A generated id determines the user and the instant it was made from. */
  lemma MemoryIdRoundTrip(userId: string, now: nat)
    ensures ParseMemoryId(MemoryId(userId, now)) == Some((userId, now))
  {
    var d := Decimal(now);
    var id := MemoryId(userId, now);
    assert '_' !in d by {
      forall j | 0 <= j < |d| ensures d[j] != '_' {
        assert IsDigit(d[j]);
      }
    }
    assert id == userId + ['_'] + d;
    LastIndexOfSplit(userId, d, '_');
    assert id[|userId| + 1..] == d;
    assert id[..|userId|] == userId;
    ParseDecimalOfDecimal(now);
  }

  /** Two adds collide on an id only for the same user in the same millisecond. */
  lemma MemoryIdInjective(u1: string, n1: nat, u2: string, n2: nat)
    requires MemoryId(u1, n1) == MemoryId(u2, n2)
    ensures u1 == u2 && n1 == n2
  {
    MemoryIdRoundTrip(u1, n1);
    MemoryIdRoundTrip(u2, n2);
  }

  /** Every map the tools build: no key twice, each record stored under its
      own id, and each id generated from the record's user and creation time. */
  ghost predicate WellFormed(s: Store) {
    && OrderedMap.Valid(s)
    && forall i :: 0 <= i < |s| ==>
         s[i].value.id == s[i].key && s[i].key == MemoryId(s[i].value.userId, s[i].value.timestamp)
  }

  // ---------------------------------------------------------------- add

  /** `add_memories`: stores a new record under `${userId}_${now}`; `tags`
      defaults to the empty list. */
  function AddMemory(s: Store, userId: string, memory: string, tags: Option<seq<string>>, now: nat): (r: Written)
    ensures r.status == SucceededWith(IdField.MemoryId, MemoryId(userId, now))
    ensures OrderedMap.Get(r.store, MemoryId(userId, now))
            == Some(MemoryData(MemoryId(userId, now), userId, memory, tags.GetOr([]), now, None))
    ensures forall k :: k != MemoryId(userId, now) ==> OrderedMap.Get(r.store, k) == OrderedMap.Get(s, k)
  {
    var id := MemoryId(userId, now);
    var record := MemoryData(id, userId, memory, tags.GetOr([]), now, None);
    var s' := OrderedMap.Set(s, id, record);
    assert forall k :: OrderedMap.Get(s', k) == if k == id then Some(record) else OrderedMap.Get(s, k) by {
      forall k ensures OrderedMap.Get(s', k) == if k == id then Some(record) else OrderedMap.Get(s, k) {
        OrderedMap.SetGet(s, id, record, k);
      }
    }
    Written(SucceededWith(IdField.MemoryId, id), s')
  }

  /** `add_memories` keeps the store well formed. */
  lemma AddMemoryWellFormed(s: Store, userId: string, memory: string, tags: Option<seq<string>>, now: nat)
    requires WellFormed(s)
    ensures WellFormed(AddMemory(s, userId, memory, tags, now).store)
  {
    var id := MemoryId(userId, now);
    var record := MemoryData(id, userId, memory, tags.GetOr([]), now, None);
    OrderedMap.SetValid(s, id, record);
    var s' := OrderedMap.Set(s, id, record);
    if id in OrderedMap.Keys(s) {
      forall i | 0 <= i < |s'| ensures s'[i].value.id == s'[i].key && s'[i].key == MemoryId(s'[i].value.userId, s'[i].value.timestamp) {
        assert s'[i].key == OrderedMap.Keys(s')[i] == OrderedMap.Keys(s)[i] == s[i].key;
        OrderedMap.GetAt(s', i);
        OrderedMap.SetGet(s, id, record, s'[i].key);
        if s'[i].key != id {
          OrderedMap.GetAt(s, i);
        }
      }
    }
  }

  /** An add overwrites an existing record only when that record belongs to
      the same user and was created in the same millisecond. */
  lemma AddOverwritesOnlySameUserSameInstant(s: Store, userId: string, now: nat)
    requires WellFormed(s)
    requires MemoryId(userId, now) in OrderedMap.Keys(s)
    ensures exists i :: 0 <= i < |s| && s[i].key == MemoryId(userId, now)
                        && s[i].value.userId == userId && s[i].value.timestamp == now
  {
    var i :| 0 <= i < |s| && s[i].key == MemoryId(userId, now);
    MemoryIdInjective(s[i].value.userId, s[i].value.timestamp, userId, now);
  }

  // ---------------------------------------------------------------- search

  /** The filter of `search_memory`: the record is the user's, and either the
      query is absent or empty (`!query`), or the lower-cased content or some
      lower-cased tag contains the lower-cased query. */
  predicate Matches(m: MemoryData, userId: string, query: Option<string>) {
    && m.userId == userId
    && (|| query.None?
        || query.value == ""
        || Contains(ToLower(m.memory), ToLower(query.value))
        || exists i :: 0 <= i < |m.tags| && Contains(ToLower(m.tags[i]), ToLower(query.value)))
  }

  /** `xs` occurs in `ys` in the same order, possibly with gaps. */
  ghost predicate IsSubsequence<T>(xs: seq<T>, ys: seq<T>)
    decreases |ys|
  {
    if |xs| == 0 then true
    else if |ys| == 0 then false
    else if xs[0] == ys[0] then IsSubsequence(xs[1..], ys[1..])
    else IsSubsequence(xs, ys[1..])
  }

  function FilterMatching(xs: seq<MemoryData>, userId: string, query: Option<string>): (r: seq<MemoryData>)
    ensures forall m :: m in r <==> m in xs && Matches(m, userId, query)
    ensures IsSubsequence(r, xs)
    decreases |xs|
  {
    if |xs| == 0 then []
    else
      var rest := FilterMatching(xs[1..], userId, query);
      assert xs == [xs[0]] + xs[1..];
      if Matches(xs[0], userId, query) then [xs[0]] + rest else rest
  }

  /** The filter keeps every copy of a matching record and drops every copy
      of one that does not match. */
  lemma {:induction false} FilterKeepsRepeats(xs: seq<MemoryData>, userId: string, query: Option<string>)
    ensures var r := FilterMatching(xs, userId, query);
            forall m :: multiset(r)[m] == if Matches(m, userId, query) then multiset(xs)[m] else 0
    decreases |xs|
  {
    if |xs| > 0 {
      FilterKeepsRepeats(xs[1..], userId, query);
      assert xs == [xs[0]] + xs[1..];
    }
  }

  /** `search_memory`: the user's matching records, in insertion order. */
  function SearchMemory(s: Store, userId: string, query: Option<string>): (r: seq<MemoryData>)
    ensures forall m :: m in r <==> m in OrderedMap.Values(s) && Matches(m, userId, query)
    ensures IsSubsequence(r, OrderedMap.Values(s))
  {
    FilterMatching(OrderedMap.Values(s), userId, query)
  }

  /** Search keeps every stored copy of a matching record and drops every
      copy of a record that does not match. */
  lemma SearchKeepsRepeats(s: Store, userId: string, query: Option<string>)
    ensures var r := SearchMemory(s, userId, query);
            forall m :: multiset(r)[m] == if Matches(m, userId, query) then multiset(OrderedMap.Values(s))[m] else 0
  {
    FilterKeepsRepeats(OrderedMap.Values(s), userId, query);
  }

  /** An empty query is the same as no query: every record of the user. */
  lemma SearchEmptyQuery(s: Store, userId: string)
    ensures forall m :: m in SearchMemory(s, userId, Some("")) <==> m in OrderedMap.Values(s) && m.userId == userId
  {
  }

  /** The query is matched without regard to ASCII letter case. */
  lemma {:induction false} ToLowerIdempotent(s: string)
    ensures ToLower(ToLower(s)) == ToLower(s)
  {
  }

  lemma MatchesIgnoresQueryCase(m: MemoryData, userId: string, q: string)
    ensures Matches(m, userId, Some(q)) <==> Matches(m, userId, Some(ToLower(q)))
  {
    ToLowerIdempotent(q);
    if q == "" || ToLower(q) == "" {
      ContainsEmpty(ToLower(m.memory));
    }
  }

  /** `search(userId, "JOKE")` finds a record tagged `"joke"`. */
  lemma SearchFindsTagInAnyCase(s: Store, userId: string, m: MemoryData)
    requires m in OrderedMap.Values(s) && m.userId == userId && "joke" in m.tags
    ensures m in SearchMemory(s, userId, Some("JOKE"))
  {
    var i :| 0 <= i < |m.tags| && m.tags[i] == "joke";
    assert ToLower("JOKE") == "joke";
    assert ToLower(m.tags[i]) == "joke";
    ContainsIff("joke", "joke");
    assert OccursAt("joke", "joke", 0);
  }

  // ---------------------------------------------------------------- update

  /** `update_memories`: replaces the content, replaces the tags only when
      given, and stamps `updatedAt`; an unknown id is reported and changes nothing. */
  function UpdateMemory(s: Store, memoryId: string, memory: string, tags: Option<seq<string>>, now: nat): (r: Written)
    ensures OrderedMap.Get(s, memoryId).None? ==> r.status == FailedWith(MemoryNotFound) && r.store == s
    ensures OrderedMap.Get(s, memoryId).Some? ==>
      var prior := OrderedMap.Get(s, memoryId).value;
      && r.status == Succeeded
      && OrderedMap.Get(r.store, memoryId).Some?
      && var updated := OrderedMap.Get(r.store, memoryId).value;
      && updated.id == prior.id && updated.userId == prior.userId && updated.timestamp == prior.timestamp
      && updated.memory == memory
      && updated.tags == (if tags.Some? then tags.value else prior.tags)
      && updated.updatedAt == Some(now)
    ensures forall k :: k != memoryId ==> OrderedMap.Get(r.store, k) == OrderedMap.Get(s, k)
    ensures OrderedMap.Keys(r.store) == OrderedMap.Keys(s)
  {
    match OrderedMap.Get(s, memoryId)
    case None => Written(FailedWith(MemoryNotFound), s)
    case Some(existing) =>
      var updated := existing.(memory := memory, tags := tags.GetOr(existing.tags), updatedAt := Some(now));
      var s' := OrderedMap.Set(s, memoryId, updated);
      assert forall k :: OrderedMap.Get(s', k) == if k == memoryId then Some(updated) else OrderedMap.Get(s, k) by {
        forall k ensures OrderedMap.Get(s', k) == if k == memoryId then Some(updated) else OrderedMap.Get(s, k) {
          OrderedMap.SetGet(s, memoryId, updated, k);
        }
      }
      Written(Succeeded, s')
  }

  /** `update_memories` keeps the store well formed. */
  lemma UpdateMemoryWellFormed(s: Store, memoryId: string, memory: string, tags: Option<seq<string>>, now: nat)
    requires WellFormed(s)
    ensures WellFormed(UpdateMemory(s, memoryId, memory, tags, now).store)
  {
    var s' := UpdateMemory(s, memoryId, memory, tags, now).store;
    if OrderedMap.Get(s, memoryId).Some? {
      var existing := OrderedMap.Get(s, memoryId).value;
      var updated := existing.(memory := memory, tags := tags.GetOr(existing.tags), updatedAt := Some(now));
      OrderedMap.SetValid(s, memoryId, updated);
      forall i | 0 <= i < |s'| ensures s'[i].value.id == s'[i].key && s'[i].key == MemoryId(s'[i].value.userId, s'[i].value.timestamp) {
        assert s'[i].key == OrderedMap.Keys(s')[i] == OrderedMap.Keys(s)[i] == s[i].key;
        OrderedMap.GetAt(s', i);
        OrderedMap.GetAt(s, i);
        if s'[i].key == memoryId {
          assert existing == s[i].value;
        }
      }
    }
  }

  // ---------------------------------------------------------------- delete

  /** `delete_memory`: `{ success: deleted }`, where `deleted` says whether the
      id was present; afterwards the id is absent. */
  function DeleteMemory(s: Store, memoryId: string): (r: Written)
    ensures r.status == Succeeded || r.status == Unsuccessful
    ensures r.status.Success() <==> memoryId in OrderedMap.Keys(s)
    ensures OrderedMap.Get(r.store, memoryId).None?
    ensures forall k :: k != memoryId ==> OrderedMap.Get(r.store, k) == OrderedMap.Get(s, k)
  {
    var s' := OrderedMap.Remove(s, memoryId);
    assert forall k :: OrderedMap.Get(s', k) == if k == memoryId then None else OrderedMap.Get(s, k) by {
      forall k ensures OrderedMap.Get(s', k) == if k == memoryId then None else OrderedMap.Get(s, k) {
        OrderedMap.RemoveGet(s, memoryId, k);
      }
    }
    Written(if memoryId in OrderedMap.Keys(s) then Succeeded else Unsuccessful, s')
  }

  /** `delete_memory` keeps the store well formed. */
  lemma DeleteMemoryWellFormed(s: Store, memoryId: string)
    requires WellFormed(s)
    ensures WellFormed(DeleteMemory(s, memoryId).store)
  {
    OrderedMap.RemoveValid(s, memoryId);
    OrderedMap.RemoveEntries(s, memoryId);
    var s' := DeleteMemory(s, memoryId).store;
    forall i | 0 <= i < |s'| ensures s'[i].value.id == s'[i].key && s'[i].key == MemoryId(s'[i].value.userId, s'[i].value.timestamp) {
      assert s'[i] in s;
      var j :| 0 <= j < |s| && s[j] == s'[i];
    }
  }

  /** Deleting the same id twice: the second call reports `{ success: false }`
      and changes nothing. */
  lemma DeleteTwice(s: Store, memoryId: string)
    ensures var once := DeleteMemory(s, memoryId).store;
            DeleteMemory(once, memoryId) == Written(Unsuccessful, once)
  {
    var once := DeleteMemory(s, memoryId).store;
    assert memoryId !in OrderedMap.Keys(once);
  }

  /** After a delete, neither search nor list ever returns a record with that id. */
  lemma DeletedNeverFound(s: Store, memoryId: string, userId: string, query: Option<string>, limit: Option<int>)
    requires WellFormed(s)
    ensures var s' := DeleteMemory(s, memoryId).store;
            && (forall m :: m in SearchMemory(s', userId, query) ==> m.id != memoryId)
            && (forall m :: m in ListMemories(s', userId, limit) ==> m.id != memoryId)
  {
    var s' := DeleteMemory(s, memoryId).store;
    DeleteMemoryWellFormed(s, memoryId);
    forall m | m in OrderedMap.Values(s') ensures m.id != memoryId {
      var i :| 0 <= i < |s'| && s'[i].value == m;
      OrderedMap.GetAt(s', i);
    }
  }

  // ---------------------------------------------------------------- list

  /** `limit || 50`: a missing or zero limit means 50. */
  function EffectiveLimit(limit: Option<int>): (r: int)
    ensures r != 0
    ensures limit.None? || limit.value == 0 ==> r == DefaultListLimit
    ensures limit.Some? && limit.value != 0 ==> r == limit.value
  {
    if limit.None? || limit.value == 0 then DefaultListLimit else limit.value
  }

  /** Length of `xs.slice(0, end)` for an array of length `n`: a negative
      end counts back from the end of the array. */
  function SliceLength(n: nat, end: int): (r: nat)
    ensures r <= n
    ensures end >= 0 ==> r == if end < n then end else n
    ensures end < 0 ==> r == if n + end > 0 then n + end else 0
  {
    if end >= 0 then (if end < n then end else n)
    else if n + end > 0 then n + end else 0
  }

  /** Newest first: timestamps never increase along the sequence. */
  ghost predicate NewestFirst(xs: seq<MemoryData>) {
    forall i, j :: 0 <= i < j < |xs| ==> xs[i].timestamp >= xs[j].timestamp
  }

  function OwnedBy(xs: seq<MemoryData>, userId: string): (r: seq<MemoryData>)
    ensures forall m :: m in r <==> m in xs && m.userId == userId
    ensures multiset(r) <= multiset(xs)
    decreases |xs|
  {
    if |xs| == 0 then []
    else
      var rest := OwnedBy(xs[1..], userId);
      assert xs == [xs[0]] + xs[1..];
      if xs[0].userId == userId then [xs[0]] + rest else rest
  }

  /** Places `x` into a newest-first sequence. */
  function InsertByRecency(x: MemoryData, ys: seq<MemoryData>): (r: seq<MemoryData>)
    requires NewestFirst(ys)
    ensures NewestFirst(r)
    ensures |r| == |ys| + 1
    ensures multiset(r) == multiset(ys) + multiset{x}
    decreases |ys|
  {
    if |ys| == 0 || x.timestamp >= ys[0].timestamp then
      [x] + ys
    else
      var rest := InsertByRecency(x, ys[1..]);
      assert ys == [ys[0]] + ys[1..];
      HeadIsNewest(x, ys, rest);
      [ys[0]] + rest
  }

  /** What lands behind the head of a newest-first sequence is no newer than it. */
  lemma HeadIsNewest(x: MemoryData, ys: seq<MemoryData>, rest: seq<MemoryData>)
    requires NewestFirst(ys) && |ys| > 0 && x.timestamp < ys[0].timestamp
    requires multiset(rest) == multiset(ys[1..]) + multiset{x}
    ensures forall j :: 0 <= j < |rest| ==> rest[j].timestamp <= ys[0].timestamp
  {
    forall j | 0 <= j < |rest| ensures rest[j].timestamp <= ys[0].timestamp {
      assert rest[j] in multiset(rest);
      if rest[j] != x {
        assert rest[j] in multiset(ys[1..]);
        var k :| 0 <= k < |ys[1..]| && ys[1..][k] == rest[j];
        assert ys[k + 1] == rest[j];
      }
    }
  }

  /** The sort of `list_memories`: `(a, b) => time(b) - time(a)`. */
  function SortByRecency(xs: seq<MemoryData>): (r: seq<MemoryData>)
    ensures NewestFirst(r)
    ensures |r| == |xs|
    ensures multiset(r) == multiset(xs)
    decreases |xs|
  {
    if |xs| == 0 then []
    else
      assert xs == [xs[0]] + xs[1..];
      InsertByRecency(xs[0], SortByRecency(xs[1..]))
  }

  /** Cutting a newest-first sequence keeps records at least as new as every
      record it drops. */
  lemma PrefixKeepsNewest(sorted: seq<MemoryData>, n: nat)
    requires NewestFirst(sorted) && n <= |sorted|
    ensures multiset(sorted[..n]) <= multiset(sorted)
    ensures forall m, i :: m in multiset(sorted) - multiset(sorted[..n]) && 0 <= i < n
              ==> m.timestamp <= sorted[i].timestamp
  {
    assert sorted == sorted[..n] + sorted[n..];
    assert multiset(sorted) == multiset(sorted[..n]) + multiset(sorted[n..]);
    forall m, i | m in multiset(sorted) - multiset(sorted[..n]) && 0 <= i < n
      ensures m.timestamp <= sorted[i].timestamp
    {
      assert m in multiset(sorted[n..]);
      var k :| 0 <= k < |sorted[n..]| && sorted[n..][k] == m;
      assert sorted[n + k] == m;
    }
  }

  /** The `n` newest of `xs`, newest first, and no dropped record is newer
      than a kept one. */
  lemma NewestPrefix(xs: seq<MemoryData>, n: nat)
    requires n <= |xs|
    ensures var r := SortByRecency(xs)[..n];
            && multiset(r) <= multiset(xs)
            && NewestFirst(r)
            && forall m, i :: m in multiset(xs) - multiset(r) && 0 <= i < |r| ==> m.timestamp <= r[i].timestamp
  {
    var sorted := SortByRecency(xs);
    PrefixKeepsNewest(sorted, n);
  }

  /** `list_memories`: the user's records, newest first, cut to `limit || 50`. */
  function ListMemories(s: Store, userId: string, limit: Option<int>): (r: seq<MemoryData>)
    ensures forall m :: m in r ==> m in OrderedMap.Values(s) && m.userId == userId
    ensures multiset(r) <= multiset(OwnedBy(OrderedMap.Values(s), userId))
    ensures NewestFirst(r)
    ensures |r| == SliceLength(|OwnedBy(OrderedMap.Values(s), userId)|, EffectiveLimit(limit))
    ensures forall m, i :: m in multiset(OwnedBy(OrderedMap.Values(s), userId)) - multiset(r) && 0 <= i < |r|
              ==> m.timestamp <= r[i].timestamp
  {
    var owned := OwnedBy(OrderedMap.Values(s), userId);
    var n := SliceLength(|owned|, EffectiveLimit(limit));
    var r := SortByRecency(owned)[..n];
    NewestPrefix(owned, n);
    assert forall m :: m in r ==> m in multiset(owned);
    r
  }

  /** With no limit, list returns min(count, 50) records. */
  lemma ListDefaultsToFifty(s: Store, userId: string)
    ensures var n := |OwnedBy(OrderedMap.Values(s), userId)|;
            |ListMemories(s, userId, None)| == (if n < 50 then n else 50)
            && ListMemories(s, userId, Some(0)) == ListMemories(s, userId, None)
  {
  }

  /** A positive limit returns min(count, limit) records; a negative one
      drops that many from the end of the sorted list. */
  lemma ListHonoursLimit(s: Store, userId: string, l: int)
    ensures var n := |OwnedBy(OrderedMap.Values(s), userId)|;
            var got := |ListMemories(s, userId, Some(l))|;
            && (l > 0 ==> got == if n < l then n else l)
            && (l < 0 ==> got == if n + l > 0 then n + l else 0)
  {
  }

  // ---------------------------------------------------------------- round trips

  /** A record just added is found by an unfiltered search for its user. */
  lemma AddThenSearch(s: Store, userId: string, memory: string, tags: Option<seq<string>>, now: nat)
    ensures var w := AddMemory(s, userId, memory, tags, now);
            MemoryData(MemoryId(userId, now), userId, memory, tags.GetOr([]), now, None)
              in SearchMemory(w.store, userId, None)
  {
    var w := AddMemory(s, userId, memory, tags, now);
    var record := MemoryData(MemoryId(userId, now), userId, memory, tags.GetOr([]), now, None);
    assert OrderedMap.Entry(MemoryId(userId, now), record) in w.store;
  }

  /** After an update, a search for the owner shows the new content and stamp. */
  lemma UpdateThenSearch(s: Store, memoryId: string, memory: string, tags: Option<seq<string>>, now: nat)
    requires OrderedMap.Get(s, memoryId).Some?
    ensures var prior := OrderedMap.Get(s, memoryId).value;
            var w := UpdateMemory(s, memoryId, memory, tags, now);
            exists m :: m in SearchMemory(w.store, prior.userId, None)
                        && m.id == prior.id && m.memory == memory && m.updatedAt == Some(now)
  {
    var w := UpdateMemory(s, memoryId, memory, tags, now);
    var m := OrderedMap.Get(w.store, memoryId).value;
    assert OrderedMap.Entry(memoryId, m) in w.store;
  }
}
