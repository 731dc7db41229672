/** The mutable response cache of ws_hub.go: a request queue that is a slice of a backing array,
    compacted in place and popped at the front, next to a map of responses. */
module RequestCaches {
  import opened Basics
  import C = Caches

  class RequestCache {
    var buffer: array<C.RequestId>
    var head: nat
    var count: nat
    var entries: map<C.RequestId, C.Entry>
    ghost var Value: C.Cache

    // The fields hold the given value: the queue is the slice of `count` ids from `head` on.
    ghost predicate Represents(value: C.Cache)
      reads this, buffer
    {
      count == |value.order| && Holds(buffer, head, value.order) && entries == value.entries
    }

    ghost predicate Valid()
      reads this, buffer
    {
      Represents(Value) && C.Valid(Value) && |Value.order| <= C.MAX_IDEMPOTENCY_ENTRIES
    }

    constructor ()
      ensures Valid() && fresh(buffer)
      ensures Value == C.EMPTY_CACHE
    {
      buffer := new C.RequestId[C.MAX_IDEMPOTENCY_ENTRIES](_ => C.RequestId(""));
      head, count, entries := 0, 0, map[];
      Value := C.EMPTY_CACHE;
    }

    method EvictExpired(now: int)
      requires Valid()
      modifies this, buffer
      ensures Valid() && buffer == old(buffer)
      ensures Value == C.Evict(old(Value), now)
    {
      C.EvictValid(Value, now);
      C.EvictShortens(Value, now);
      if count == 0 {
        assert Value.entries == C.Evict(Value, now).entries;
        return;
      }
      count, entries := CompactInPlace(buffer, head, count, entries, now, Value);
      Value := C.Evict(Value, now);
    }

    /** The previous response to this request, if it was answered recently. */
    method Lookup(requestId: C.RequestId, eventType: string, now: int) returns (cached: Option<seq<C.Envelope>>)
      requires Valid()
      modifies this, buffer
      ensures Valid() && buffer == old(buffer)
      ensures (Value, cached) == C.Lookup(old(Value), requestId, eventType, now)
    {
      if requestId.text == "" {
        return None;
      }
      EvictExpired(now);
      if requestId !in entries || entries[requestId].eventType != eventType {
        return None;
      }
      return Some(entries[requestId].envelopes);
    }

    /** Remembers a response, unless the request is anonymous, unanswered or already remembered. */
    method Store(requestId: C.RequestId, eventType: string, responses: seq<C.Envelope>, now: int, storedAt: int)
      requires Valid()
      modifies this, buffer
      ensures Valid() && (fresh(buffer) || buffer == old(buffer))
      ensures Value == C.Store(old(Value), requestId, eventType, responses, now, storedAt)
    {
      if requestId.text == "" || responses == [] {
        return;
      }
      EvictExpired(now);
      if requestId in entries {
        return;
      }
      C.PushValid(Value, C.Stored(requestId, C.Entry(eventType, responses, storedAt)));
      entries := entries[requestId := C.Entry(eventType, responses, storedAt)];
      Append(requestId, Value.order);
      Value := C.Cache(Value.order + [requestId], entries);
      TrimToCap();
    }

    // append: in place while the backing array has room, otherwise into a larger one.
    method Append(id: C.RequestId, ghost order: seq<C.RequestId>)
      requires count == |order| && Holds(buffer, head, order)
      modifies this`buffer, this`head, this`count, buffer
      ensures fresh(buffer) || buffer == old(buffer)
      ensures count == |order| + 1 && Holds(buffer, head, order + [id])
    {
      if head + count == buffer.Length {
        var larger := new C.RequestId[2 * count + 1](_ => C.RequestId(""));
        forall i | 0 <= i < count {
          larger[i] := buffer[head + i];
        }
        assert Holds(larger, 0, order);
        buffer, head := larger, 0;
      }
      buffer[head + count] := id;
      count := count + 1;
    }

    // Pops requests and their responses from the front until the cap is met.
    method TrimToCap()
      requires Represents(Value)
      requires C.Valid(C.Cap(Value)) && |C.Cap(Value).order| <= C.MAX_IDEMPOTENCY_ENTRIES
      modifies this`head, this`count, this`entries, this`Value
      ensures Valid() && Value == C.Cap(old(Value))
    {
      while count > C.MAX_IDEMPOTENCY_ENTRIES
        invariant Represents(Value)
        invariant C.Cap(Value) == C.Cap(old(Value))
        decreases count
      {
        var oldest := buffer[head];
        head, count := head + 1, count - 1;
        entries := entries - {oldest};
        Value := C.Cache(Value.order[1..], Value.entries - {Value.order[0]});
      }
    }
  }

  // The array holds the given sequence from `head` on.
  ghost predicate Holds(buffer: array<C.RequestId>, head: nat, order: seq<C.RequestId>)
    reads buffer
  {
    && head + |order| <= buffer.Length
    && forall k | head <= k < head + |order| :: buffer[k] == order[k - head]
  }

  /** Drops the expired requests, writing the kept ones over the front of the very slice being read. */
  method CompactInPlace(buffer: array<C.RequestId>, head: nat, count: nat, entries: map<C.RequestId, C.Entry>,
                        now: int, ghost was: C.Cache)
    returns (kept: nat, left: map<C.RequestId, C.Entry>)
    requires C.Valid(was) && was.entries == entries
    requires count == |was.order| && Holds(buffer, head, was.order)
    modifies buffer
    ensures kept == |C.Evict(was, now).order| && Holds(buffer, head, C.Evict(was, now).order)
    ensures left == C.Evict(was, now).entries
  {
    ghost var done := C.Cache([], entries);
    kept, left := 0, entries;
    for i := 0 to count
      invariant done == Scan(was, i, now)
      invariant kept == |done.order| <= i && left == done.entries
      invariant Holds(buffer, head, done.order)
      invariant forall k | head + i <= k < head + count :: buffer[k] == was.order[k - head]
    {
      var id := buffer[head + i];
      done := EvictStep(done, id, now);
      if id !in left {
        continue;
      }
      if !C.Fresh(left[id], now) {
        left := left - {id};
        continue;
      }
      buffer[head + kept] := id;
      kept := kept + 1;
    }
    ScanEvicts(was, now);
  }

  // One request looked at: skipped, dropped together with its response, or kept.
  ghost function EvictStep(done: C.Cache, id: C.RequestId, now: int): C.Cache {
    if id !in done.entries then done
    else if !C.Fresh(done.entries[id], now) then done.(entries := done.entries - {id})
    else done.(order := done.order + [id])
  }

  ghost function Scan(c: C.Cache, n: nat, now: int): C.Cache
    requires n <= |c.order|
  {
    if n == 0 then C.Cache([], c.entries) else EvictStep(Scan(c, n - 1, now), c.order[n - 1], now)
  }

  // What is left of the responses once the given requests have been looked at.
  ghost function Surviving(seen: seq<C.RequestId>, entries: map<C.RequestId, C.Entry>, now: int)
    : map<C.RequestId, C.Entry>
  {
    map id | id in entries && (id !in seen || C.Fresh(entries[id], now)) :: entries[id]
  }

  lemma SurvivingStep(seen: seq<C.RequestId>, id: C.RequestId, entries: map<C.RequestId, C.Entry>, now: int)
    requires id in entries && id !in seen
    ensures var left := Surviving(seen, entries, now);
            id in left && Surviving(seen + [id], entries, now)
                == (if C.Fresh(entries[id], now) then left else left - {id})
  {
  }

  lemma {:induction false} ScanProgress(c: C.Cache, n: nat, now: int)
    requires C.Valid(c) && n <= |c.order|
    ensures Scan(c, n, now).order == C.KeepFresh(c.order[..n], c.entries, now)
    ensures Scan(c, n, now).entries == Surviving(c.order[..n], c.entries, now)
  {
    if n == 0 {
      assert Surviving([], c.entries, now) == c.entries;
    } else {
      ScanProgress(c, n - 1, now);
      var id, seen := c.order[n - 1], c.order[..n - 1];
      assert id in c.order && id !in seen;
      assert c.order[..n] == seen + [id];
      C.KeepFreshSnoc(seen, id, c.entries, now);
      SurvivingStep(seen, id, c.entries, now);
    }
  }

  /** Looking at every request of the queue in turn is the eviction. */
  lemma {:induction false} ScanEvicts(c: C.Cache, now: int)
    requires C.Valid(c)
    ensures Scan(c, |c.order|, now) == C.Evict(c, now)
  {
    ScanProgress(c, |c.order|, now);
    assert c.order[..|c.order|] == c.order;
    assert Surviving(c.order, c.entries, now) == C.Evict(c, now).entries;
  }
}
