/** The per-connection response cache of ws_hub.go as a value, and what it remembers of the
    history of stored responses. Times are nanoseconds. */
module Caches {
  import opened Basics
  import opened Seating

  // What the server sends: a table snapshot with its version, or an error notice.
  datatype Envelope =
    | TableSnapshot(tableId: string, version: nat, snapshot: Snapshot)
    | ErrorNotice(code: string, message: string)

  // A request id as the client chose it; the empty text marks an anonymous request.
  datatype RequestId = RequestId(text: string)

  const MAX_IDEMPOTENCY_ENTRIES := 128
  const IDEMPOTENCY_TTL := 600_000_000_000

  datatype Entry = Entry(eventType: string, envelopes: seq<Envelope>, storedAt: int)

  datatype Cache = Cache(order: seq<RequestId>, entries: map<RequestId, Entry>)

  const EMPTY_CACHE := Cache([], map[])

  predicate Fresh(e: Entry, now: int) {
    now - e.storedAt <= IDEMPOTENCY_TTL
  }

  ghost predicate NoDuplicates(order: seq<RequestId>) {
    forall i, j | 0 <= i < j < |order| :: order[i] != order[j]
  }

  /** The queue has no duplicates and lists exactly the keys of the map. */
  ghost predicate Valid(c: Cache) {
    NoDuplicates(c.order) && forall id :: id in c.order <==> id in c.entries
  }

  function KeepFresh(order: seq<RequestId>, entries: map<RequestId, Entry>, now: int): seq<RequestId> {
    if order == [] then [] else
      var id := order[|order| - 1];
      KeepFresh(order[..|order| - 1], entries, now) + (if id in entries && Fresh(entries[id], now) then [id] else [])
  }

  function Evict(c: Cache, now: int): Cache {
    Cache(KeepFresh(c.order, c.entries, now), map id | id in c.entries && Fresh(c.entries[id], now) :: c.entries[id])
  }

  // Pops the oldest requests until the cap is met.
  function Cap(c: Cache): Cache
    decreases |c.order|
  {
    if |c.order| <= MAX_IDEMPOTENCY_ENTRIES then c
    else Cap(Cache(c.order[1..], c.entries - {c.order[0]}))
  }

  function Lookup(c: Cache, id: RequestId, eventType: string, now: int): (Cache, Option<seq<Envelope>>) {
    if id.text == "" then (c, None)
    else
      var d := Evict(c, now);
      if id in d.entries && d.entries[id].eventType == eventType then (d, Some(d.entries[id].envelopes)) else (d, None)
  }

  // `now` is the clock at the eviction, `at` the later reading stamped on the entry.
  function Store(c: Cache, id: RequestId, eventType: string, responses: seq<Envelope>, now: int, at: int): Cache {
    if id.text == "" || responses == [] then c
    else
      var d := Evict(c, now);
      if id in d.entries then d
      else Cap(Cache(d.order + [id], d.entries[id := Entry(eventType, responses, at)]))
  }

  // ---------- The history behind a cache ----------

  // One accepted store.
  datatype Stored = Stored(id: RequestId, entry: Entry)

  // The stores a cache would accept, as a log that is never trimmed.
  function Log(hist: seq<Stored>, c: Cache, id: RequestId, eventType: string, responses: seq<Envelope>, now: int,
      at: int): seq<Stored>
  {
    if id.text == "" || responses == [] || id in Evict(c, now).entries then hist
    else hist + [Stored(id, Entry(eventType, responses, at))]
  }

  // Fewer than 128 stores ago, and at most ten minutes before `now`.
  predicate Recent(hist: seq<Stored>, i: nat, now: int)
    requires i < |hist|
  {
    |hist| - i <= 128 && now - hist[i].entry.storedAt <= 600_000_000_000
  }

  ghost predicate ClockedBy(hist: seq<Stored>, now: int) {
    && (forall i, j | 0 <= i < j < |hist| :: hist[i].entry.storedAt <= hist[j].entry.storedAt)
    && (forall i | 0 <= i < |hist| :: hist[i].entry.storedAt <= now)
  }

  function IdsOf(hist: seq<Stored>): seq<RequestId> {
    seq(|hist|, i requires 0 <= i < |hist| => hist[i].id)
  }

  /** The cache is the longest suffix of the history, from `start`, with at most 128 entries and
      none beyond its time to live at `last`. */
  ghost predicate WindowFrom(c: Cache, hist: seq<Stored>, last: int, start: nat) {
    && start <= |hist|
    && (forall i | 0 <= i < |hist| :: i >= start <==> Recent(hist, i, last))
    && c.order == IdsOf(hist[start..])
    && (forall i | start <= i < |hist| :: hist[i].id in c.entries && c.entries[hist[i].id] == hist[i].entry)
  }

  ghost predicate Tracks(c: Cache, hist: seq<Stored>, last: int) {
    Valid(c) && exists start: nat :: WindowFrom(c, hist, last, start)
  }

  lemma {:induction false} KeepFreshSuffix(order: seq<RequestId>, entries: map<RequestId, Entry>, now: int, cut: nat)
    requires cut <= |order|
    requires forall i | 0 <= i < |order| :: order[i] in entries
    requires forall i | 0 <= i < |order| :: Fresh(entries[order[i]], now) <==> i >= cut
    ensures KeepFresh(order, entries, now) == order[cut..]
  {
    if order != [] {
      var n := |order| - 1;
      assert forall i | 0 <= i < n :: order[..n][i] == order[i];
      assert order[n] in entries;
      if cut <= n {
        KeepFreshSuffix(order[..n], entries, now, cut);
        assert order[cut..] == order[..n][cut..] + [order[n]];
      } else {
        KeepFreshSuffix(order[..n], entries, now, n);
      }
    }
  }

  lemma {:induction false} KeepFreshMembers(order: seq<RequestId>, entries: map<RequestId, Entry>, now: int)
    requires NoDuplicates(order)
    ensures NoDuplicates(KeepFresh(order, entries, now))
    ensures forall id ::
              id in KeepFresh(order, entries, now) <==> id in order && id in entries && Fresh(entries[id], now)
  {
    if order != [] {
      var n := |order| - 1;
      KeepFreshMembers(order[..n], entries, now);
      assert order == order[..n] + [order[n]];
      assert order[n] !in order[..n];
    }
  }

  lemma EvictValid(c: Cache, now: int)
    requires Valid(c)
    ensures Valid(Evict(c, now))
  {
    KeepFreshMembers(c.order, c.entries, now);
  }

  lemma {:induction false} KeepFreshShortens(order: seq<RequestId>, entries: map<RequestId, Entry>, now: int)
    ensures |KeepFresh(order, entries, now)| <= |order|
  {
    if order != [] {
      KeepFreshShortens(order[..|order| - 1], entries, now);
    }
  }

  lemma EvictShortens(c: Cache, now: int)
    ensures |Evict(c, now).order| <= |c.order|
  {
    KeepFreshShortens(c.order, c.entries, now);
  }

  // The first entry of a clocked history that is still fresh.
  ghost function FirstFresh(hist: seq<Stored>, now: int, from: nat): (k: nat)
    requires from <= |hist|
    ensures from <= k <= |hist|
    ensures forall i | from <= i < k :: !Fresh(hist[i].entry, now)
    ensures k < |hist| ==> Fresh(hist[k].entry, now)
    decreases |hist| - from
  {
    if from == |hist| || Fresh(hist[from].entry, now) then from else FirstFresh(hist, now, from + 1)
  }

  lemma WindowNarrows(c: Cache, hist: seq<Stored>, last: int, now: int, start: nat) returns (cut: nat)
    requires WindowFrom(c, hist, last, start) && last <= now && ClockedBy(hist, now)
    ensures start <= cut <= |hist|
    ensures forall i | 0 <= i < |hist| :: i >= cut <==> Recent(hist, i, now)
    ensures forall i | start <= i < |hist| :: Fresh(hist[i].entry, now) <==> i >= cut
  {
    cut := FirstFresh(hist, now, start);
    forall i | 0 <= i < |hist|
      ensures i >= cut <==> Recent(hist, i, now)
      ensures i >= start ==> (Fresh(hist[i].entry, now) <==> i >= cut)
    {
      assert i >= start <==> Recent(hist, i, last);
      if i >= cut {
        assert i > cut ==> hist[cut].entry.storedAt <= hist[i].entry.storedAt;
      }
    }
  }

  lemma OrderFits(c: Cache, hist: seq<Stored>, last: int, start: nat)
    requires WindowFrom(c, hist, last, start)
    ensures |c.order| == |hist| - start <= MAX_IDEMPOTENCY_ENTRIES
    ensures forall i | 0 <= i < |c.order| :: c.order[i] == hist[start + i].id
    ensures forall i | 0 <= i < |c.order| :: c.order[i] in c.entries && c.entries[c.order[i]] == hist[start + i].entry
  {
    assert start < |hist| ==> Recent(hist, start, last);
  }

  lemma IdsDrop(hist: seq<Stored>, a: nat, b: nat)
    requires a <= b <= |hist|
    ensures IdsOf(hist[b..]) == IdsOf(hist[a..])[b - a..]
  {
  }

  /** Evicting at a later time narrows the window to that time. */
  lemma EvictTracks(c: Cache, hist: seq<Stored>, last: int, now: int)
    requires Tracks(c, hist, last) && last <= now && ClockedBy(hist, now)
    ensures Tracks(Evict(c, now), hist, now)
  {
    EvictValid(c, now);
    var start: nat :| WindowFrom(c, hist, last, start);
    var cut := WindowNarrows(c, hist, last, now, start);
    OrderNarrows(c, hist, last, now, start, cut);
    assert WindowFrom(Evict(c, now), hist, now, cut);
  }

  lemma OrderNarrows(c: Cache, hist: seq<Stored>, last: int, now: int, start: nat, cut: nat)
    requires WindowFrom(c, hist, last, start) && start <= cut <= |hist|
    requires forall i | start <= i < |hist| :: Fresh(hist[i].entry, now) <==> i >= cut
    ensures Evict(c, now).order == IdsOf(hist[cut..])
  {
    OrderFits(c, hist, last, start);
    assert forall i | 0 <= i < |c.order| :: Fresh(c.entries[c.order[i]], now) <==> start + i >= cut;
    KeepFreshSuffix(c.order, c.entries, now, cut - start);
    IdsDrop(hist, start, cut);
  }

  lemma {:induction false} CapOnce(c: Cache)
    requires |c.order| <= MAX_IDEMPOTENCY_ENTRIES + 1
    ensures Cap(c) == if |c.order| <= MAX_IDEMPOTENCY_ENTRIES then c else Cache(c.order[1..], c.entries - {c.order[0]})
  {
  }

  lemma WindowGrows(hist: seq<Stored>, last: int, start: nat, x: Stored) returns (first: nat)
    requires start <= |hist| && |hist| - start <= MAX_IDEMPOTENCY_ENTRIES
    requires forall i | 0 <= i < |hist| :: i >= start <==> Recent(hist, i, last)
    requires last <= x.entry.storedAt
    ensures first == if |hist| - start < MAX_IDEMPOTENCY_ENTRIES then start else start + 1
    ensures forall i | 0 <= i < |hist + [x]| :: i >= first <==> Recent(hist + [x], i, last)
  {
    first := if |hist| - start < MAX_IDEMPOTENCY_ENTRIES then start else start + 1;
    var longer := hist + [x];
    forall i | 0 <= i < |longer|
      ensures i >= first <==> Recent(longer, i, last)
    {
      if i < |hist| {
        assert longer[i] == hist[i];
        assert i >= start <==> Recent(hist, i, last);
      }
    }
  }

  /** Accepting a response appends it to the window and drops the oldest entry beyond the cap. */
  lemma PushTracks(c: Cache, hist: seq<Stored>, last: int, x: Stored)
    requires Tracks(c, hist, last) && x.id !in c.entries
    requires last <= x.entry.storedAt
    ensures Tracks(Cap(Cache(c.order + [x.id], c.entries[x.id := x.entry])), hist + [x], last)
  {
    var start: nat :| WindowFrom(c, hist, last, start);
    var pushed := Cache(c.order + [x.id], c.entries[x.id := x.entry]);
    var longer := hist + [x];
    OrderFits(c, hist, last, start);
    CapOnce(pushed);
    PushValid(c, x);
    var first := WindowGrows(hist, last, start, x);
    assert pushed.order == IdsOf(longer[start..]);
    IdsDrop(longer, start, first);
    PushEntries(c, hist, last, x, start, first);
    assert WindowFrom(Cap(pushed), longer, last, first);
  }

  lemma PushEntries(c: Cache, hist: seq<Stored>, last: int, x: Stored, start: nat, first: nat)
    requires Valid(c) && WindowFrom(c, hist, last, start) && x.id !in c.entries
    requires first == if |hist| - start < MAX_IDEMPOTENCY_ENTRIES then start else start + 1
    ensures var capped := Cap(Cache(c.order + [x.id], c.entries[x.id := x.entry]));
            forall i | first <= i <= |hist| ::
              var y := (hist + [x])[i]; y.id in capped.entries && capped.entries[y.id] == y.entry
  {
    OrderFits(c, hist, last, start);
    CapOnce(Cache(c.order + [x.id], c.entries[x.id := x.entry]));
    assert x.id !in c.order;
    forall i | first <= i < |hist|
      ensures hist[i].id != x.id && (first > start ==> hist[i].id != c.order[0])
    {
      assert c.order[i - start] == hist[i].id;
    }
  }

  lemma PushValid(c: Cache, x: Stored)
    requires Valid(c) && x.id !in c.entries && |c.order| <= MAX_IDEMPOTENCY_ENTRIES
    ensures var capped := Cap(Cache(c.order + [x.id], c.entries[x.id := x.entry]));
            Valid(capped) && |capped.order| <= MAX_IDEMPOTENCY_ENTRIES
  {
    var pushed := Cache(c.order + [x.id], c.entries[x.id := x.entry]);
    assert x.id !in c.order;
    assert Valid(pushed);
    CapOnce(pushed);
    assert forall id :: id in pushed.order <==> id == pushed.order[0] || id in pushed.order[1..];
  }

  /** A store keeps the cache equal to the recent window of the history of accepted stores. */
  lemma StoreTracks(c: Cache, hist: seq<Stored>, last: int, id: RequestId, eventType: string,
                    responses: seq<Envelope>, now: int, at: int)
    requires Tracks(c, hist, last) && last <= now <= at && ClockedBy(hist, now)
    ensures Tracks(Store(c, id, eventType, responses, now, at), Log(hist, c, id, eventType, responses, now, at),
                   if id.text == "" || responses == [] then last else now)
    ensures ClockedBy(Log(hist, c, id, eventType, responses, now, at), at)
  {
    if id.text != "" && responses != [] {
      EvictTracks(c, hist, last, now);
      if id !in Evict(c, now).entries {
        PushTracks(Evict(c, now), hist, now, Stored(id, Entry(eventType, responses, at)));
      }
    }
  }

  // The request was answered recently: its response is among the last 128 stored, within its time to live.
  predicate Answered(hist: seq<Stored>, id: RequestId, eventType: string, now: int) {
    && id.text != ""
    && exists i ::
         0 <= i < |hist| && Recent(hist, i, now) && hist[i].id == id && hist[i].entry.eventType == eventType
  }

  /** A lookup replays exactly the requests answered recently, with the response stored for them. */
  lemma LookupExact(c: Cache, hist: seq<Stored>, last: int, id: RequestId, eventType: string, now: int)
    requires Tracks(c, hist, last) && last <= now && ClockedBy(hist, now)
    ensures Lookup(c, id, eventType, now).1.Some? <==> Answered(hist, id, eventType, now)
    ensures forall i | 0 <= i < |hist| && Recent(hist, i, now) && hist[i].id == id && id.text != ""
        && hist[i].entry.eventType == eventType ::
              Lookup(c, id, eventType, now).1 == Some(hist[i].entry.envelopes)
    ensures id.text != "" ==> Tracks(Lookup(c, id, eventType, now).0, hist, now)
  {
    EvictTracks(c, hist, last, now);
    var d := Evict(c, now);
    var start: nat :| WindowFrom(d, hist, now, start);
    if id in d.entries {
      assert id in d.order;
      var k :| 0 <= k < |d.order| && d.order[k] == id;
      assert hist[start + k].id == id && Recent(hist, start + k, now);
    }
  }

  // The id is that of one of the last 128 stored responses, within its time to live.
  predicate Remembered(hist: seq<Stored>, id: RequestId, now: int) {
    exists i :: 0 <= i < |hist| && Recent(hist, i, now) && hist[i].id == id
  }

  lemma RememberedExactly(c: Cache, hist: seq<Stored>, last: int, id: RequestId, now: int)
    requires Tracks(c, hist, last) && last <= now && ClockedBy(hist, now)
    ensures id in Evict(c, now).entries <==> Remembered(hist, id, now)
  {
    EvictTracks(c, hist, last, now);
    var d := Evict(c, now);
    var start: nat :| WindowFrom(d, hist, now, start);
    if id in d.entries {
      assert id in d.order;
      var k :| 0 <= k < |d.order| && d.order[k] == id;
      assert hist[start + k].id == id && Recent(hist, start + k, now);
    }
  }

  // ---------- Caches that differ only by evictions still to come ----------

  lemma {:induction false} KeepFreshSnoc(order: seq<RequestId>, id: RequestId, entries: map<RequestId, Entry>, now: int)
    ensures KeepFresh(order + [id], entries, now)
            == KeepFresh(order, entries, now) + (if id in entries && Fresh(entries[id], now) then [id] else [])
  {
    assert (order + [id])[..|order|] == order;
  }

  lemma {:induction false} KeepFreshTwice(order: seq<RequestId>, entries: map<RequestId, Entry>,
      kept: map<RequestId, Entry>, a: int, b: int)
    requires a <= b
    requires kept == map id | id in entries && Fresh(entries[id], a) :: entries[id]
    ensures KeepFresh(KeepFresh(order, entries, a), kept, b) == KeepFresh(order, entries, b)
  {
    if order != [] {
      var n := |order| - 1;
      KeepFreshTwice(order[..n], entries, kept, a, b);
      assert KeepFresh(order[..n], entries, a) + [] == KeepFresh(order[..n], entries, a);
      KeepFreshSnoc(KeepFresh(order[..n], entries, a), order[n], kept, b);
    }
  }

  /** An earlier eviction is absorbed by a later one. */
  lemma EvictAbsorbs(c: Cache, a: int, b: int)
    requires a <= b
    ensures Evict(Evict(c, a), b) == Evict(c, b)
  {
    KeepFreshTwice(c.order, c.entries, Evict(c, a).entries, a, b);
  }
}
