/**
 * The enhanced-segment cache of js/enhancement/videoEnhancement.js: a busy
 * guard, a lookup by sequence number, and an insertion-ordered map that
 * keeps the five most recently inserted enhanced segments.
 *
 * `enhanceSegment` awaits the frame extractor and the enhancement processor.
 * The model splits it at that point: `Begin` runs up to the first await and
 * `Complete` runs after it, given what the processors produced.
 */
module EnhancementCache {
  import opened Wrappers
  import opened MediaTypes

  const MaxCachedSegments: nat := 5

  /**
   * What the awaited frame extractor and enhancement processor came back
   * with: the byte length of the enhanced data, or the message of the error
   * one of them threw.
   */
  datatype ProcessorResult = Produced(data: Option<nat>) | Threw(message: string)

  /** How `Begin` left: refused (`null`), answered from the cache, or started. */
  datatype StartOutcome = Blocked | CacheHit(segment: Segment) | Started

  /** The value `enhanceSegment` resolves to: `null`, a segment, or a rethrown error. */
  datatype Outcome = NoSegment | Resolved(segment: Segment) | Rejected(message: string)

  /** `{...segment, data: enhancedSegment.data}` */
  function EnhancedCopy(segment: Segment, data: Option<nat>): (r: Segment)
    ensures r.sn == segment.sn && r.duration == segment.duration && r.data == data
  {
    segment.(data := data)
  }

  /** Every key of `keys` occurs once. */
  ghost predicate Distinct<K>(keys: seq<K>) {
    forall i, j :: 0 <= i < j < |keys| ==> keys[i] != keys[j]
  }

  class VideoEnhancement {
    var isEnhancing: bool
    var enhanceEnabled: bool
    var currentSegment: Option<Segment>
    /** The entries of `enhancementQueue`. */
    var cache: map<SegmentNumber, Segment>
    /** The keys of `enhancementQueue` in insertion order, as `Array.from(keys())` lists them. */
    var order: seq<SegmentNumber>

    /**
     * The key order lists exactly the cached keys, each once; the cache holds
     * at most five segments; a segment is current exactly while an
     * enhancement is in flight.
     */
    ghost predicate Valid()
      reads this
    {
      && Distinct(order)
      && (forall k :: k in cache <==> k in order)
      && |order| <= MaxCachedSegments
      && (isEnhancing <==> currentSegment.Some?)
    }

    constructor ()
      ensures Valid()
      ensures !isEnhancing && !enhanceEnabled && currentSegment == None
      ensures cache == map[] && order == []
    {
      isEnhancing := false;
      enhanceEnabled := false;
      currentSegment := None;
      cache := map[];
      order := [];
    }

    /**
     * enhanceSegment up to its first await. A missing segment or a call
     * while another enhancement is in flight resolves to `null`; a cached
     * sequence number resolves to the cached segment; in both cases nothing
     * changes. Otherwise the enhancement starts.
     */
    method Begin(segment: Option<Segment>) returns (outcome: StartOutcome)
      requires Valid()
      modifies this
      ensures Valid()
      ensures segment.None? || old(isEnhancing) <==> outcome == Blocked
      ensures outcome != Started ==>
                && isEnhancing == old(isEnhancing) && currentSegment == old(currentSegment)
                && cache == old(cache) && order == old(order)
      ensures outcome.CacheHit? <==> segment.Some? && !old(isEnhancing) && segment.value.sn in old(cache)
      ensures outcome.CacheHit? ==> outcome.segment == cache[segment.value.sn]
      ensures outcome == Started ==>
                && isEnhancing && currentSegment == segment
                && cache == old(cache) && order == old(order)
      ensures enhanceEnabled == old(enhanceEnabled)
    {
      if segment.None? || isEnhancing {
        return Blocked;
      }
      if segment.value.sn in cache {
        return CacheHit(cache[segment.value.sn]);
      }
      isEnhancing := true;
      currentSegment := segment;
      return Started;
    }

    /**
     * `enhancementQueue.set(key, value)`: a new key goes to the end of the
     * insertion order, an existing key keeps its place.
     */
    method Store(key: SegmentNumber, value: Segment)
      requires Distinct(order) && (forall k :: k in cache <==> k in order)
      modifies this
      ensures Distinct(order) && (forall k :: k in cache <==> k in order)
      ensures cache == old(cache)[key := value]
      ensures order == if key in old(cache) then old(order) else old(order) + [key]
      ensures isEnhancing == old(isEnhancing) && enhanceEnabled == old(enhanceEnabled)
      ensures currentSegment == old(currentSegment)
    {
      if key !in cache {
        order := order + [key];
      }
      cache := cache[key := value];
    }

    /** `if (keys.length > 5) enhancementQueue.delete(keys[0])`: evict the earliest insertion. */
    method EvictOldest()
      requires Distinct(order) && (forall k :: k in cache <==> k in order)
      requires |order| <= MaxCachedSegments + 1
      modifies this
      ensures Distinct(order) && (forall k :: k in cache <==> k in order)
      ensures |order| <= MaxCachedSegments
      ensures |old(order)| > MaxCachedSegments ==>
                order == old(order)[1..] && cache == old(cache) - {old(order)[0]}
      ensures |old(order)| <= MaxCachedSegments ==> order == old(order) && cache == old(cache)
      ensures isEnhancing == old(isEnhancing) && enhanceEnabled == old(enhanceEnabled)
      ensures currentSegment == old(currentSegment)
    {
      if |order| > MaxCachedSegments {
        var oldest := order[0];
        cache := cache - {oldest};
        order := order[1..];
      }
    }

    /**
     * enhanceSegment after its awaits, for the segment `Begin` started. On
     * success the enhanced copy of the segment is cached under its sequence
     * number, evicting the earliest insertion beyond five, and returned; on
     * failure the cache is untouched and the error is rethrown. Both exits
     * clear the busy flag and the current segment. Nothing here depends on
     * the flags still being set: a `reset` during the awaits does not stop
     * the insertion.
     */
    method Complete(segment: Segment, result: ProcessorResult) returns (outcome: Outcome)
      requires Valid()
      modifies this
      ensures Valid()
      ensures !isEnhancing && currentSegment == None
      ensures result.Threw? ==>
                outcome == Rejected(result.message) && cache == old(cache) && order == old(order)
      ensures result.Produced? ==>
                && outcome == Resolved(EnhancedCopy(segment, result.data))
                && segment.sn in cache && cache[segment.sn] == outcome.segment
                && (forall k :: k in cache ==> k == segment.sn || k in old(cache))
                && (forall k :: k in old(cache) && k in cache && k != segment.sn ==> cache[k] == old(cache)[k])
      ensures result.Produced? && segment.sn in old(cache) ==> order == old(order)
      ensures result.Produced? && segment.sn !in old(cache) && |old(order)| < MaxCachedSegments ==>
                order == old(order) + [segment.sn]
      ensures result.Produced? && segment.sn !in old(cache) && |old(order)| == MaxCachedSegments ==>
                order == old(order)[1..] + [segment.sn] && old(order)[0] !in cache
      ensures enhanceEnabled == old(enhanceEnabled)
    {
      if result.Threw? {
        isEnhancing := false;
        currentSegment := None;
        return Rejected(result.message);
      }
      var enhancedSegment := EnhancedCopy(segment, result.data);
      Store(segment.sn, enhancedSegment);
      ghost var stored := order;
      EvictOldest();
      if |stored| > MaxCachedSegments {
        assert stored[0] != segment.sn by {
          assert stored[|stored| - 1] == segment.sn;
        }
      }
      isEnhancing := false;
      currentSegment := None;
      return Resolved(enhancedSegment);
    }

    /**
     * The whole of enhanceSegment, for the case where no other call runs
     * while its awaits are pending.
     */
    method EnhanceSegment(segment: Option<Segment>, result: ProcessorResult) returns (outcome: Outcome)
      requires Valid()
      modifies this
      ensures Valid()
      ensures segment.None? || old(isEnhancing) ==>
                outcome == NoSegment && cache == old(cache) && order == old(order)
                && isEnhancing == old(isEnhancing) && currentSegment == old(currentSegment)
      ensures segment.Some? && !old(isEnhancing) && segment.value.sn in old(cache) ==>
                outcome == Resolved(old(cache)[segment.value.sn]) && cache == old(cache) && order == old(order)
                && !isEnhancing && currentSegment == None
      ensures segment.Some? && !old(isEnhancing) && segment.value.sn !in old(cache) ==>
                && !isEnhancing && currentSegment == None
                && (result.Threw? ==> outcome == Rejected(result.message) && cache == old(cache) && order == old(order))
                && (result.Produced? ==>
                      && outcome == Resolved(EnhancedCopy(segment.value, result.data))
                      && segment.value.sn in cache && cache[segment.value.sn] == outcome.segment
                      && (forall k :: k in cache ==> k == segment.value.sn || k in old(cache))
                      && (forall k :: k in old(cache) && k in cache && k != segment.value.sn ==> cache[k] == old(cache)[k]))
      // a new entry is appended to the insertion order, evicting the earliest one beyond five
      ensures segment.Some? && !old(isEnhancing) && segment.value.sn !in old(cache) && result.Produced? ==>
                if |old(order)| < MaxCachedSegments then order == old(order) + [segment.value.sn]
                else order == old(order)[1..] + [segment.value.sn] && old(order)[0] !in cache
      ensures enhanceEnabled == old(enhanceEnabled)
    {
      var start := Begin(segment);
      match start {
        case Blocked => return NoSegment;
        case CacheHit(cached) => return Resolved(cached);
        case Started => outcome := Complete(segment.value, result);
      }
    }

    /** getEnhancedSegment: the cached segment, `undefined` when there is none. */
    function GetEnhancedSegment(segmentNumber: SegmentNumber): (r: Option<Segment>)
      reads this
      ensures r.Some? <==> segmentNumber in cache
      ensures r.Some? ==> r.value == cache[segmentNumber]
    {
      if segmentNumber in cache then Some(cache[segmentNumber]) else None
    }

    /** hasEnhancedSegment: whether the sequence number is cached. */
    function HasEnhancedSegment(segmentNumber: SegmentNumber): (r: bool)
      reads this
      ensures r <==> GetEnhancedSegment(segmentNumber).Some?
    {
      segmentNumber in cache
    }

    /** enableEnhancement: sets the flag (the button is left out). */
    method EnableEnhancement(enable: bool)
      modifies this
      ensures enhanceEnabled == enable
      ensures isEnhancing == old(isEnhancing) && currentSegment == old(currentSegment)
      ensures cache == old(cache) && order == old(order)
    {
      enhanceEnabled := enable;
    }

    /** reset: clears the flags, the current segment and the cache. */
    method Reset()
      modifies this
      ensures Valid()
      ensures !isEnhancing && !enhanceEnabled && currentSegment == None
      ensures cache == map[] && order == []
    {
      isEnhancing := false;
      enhanceEnabled := false;
      currentSegment := None;
      cache := map[];
      order := [];
    }
  }

  lemma {:induction false} DistinctKeysCount<K>(keys: seq<K>)
    requires Distinct(keys)
    ensures |set k | k in keys| == |keys|
    decreases |keys|
  {
    if keys != [] {
      DistinctKeysCount(keys[1..]);
      assert (set k | k in keys) == {keys[0]} + (set k | k in keys[1..]);
      assert keys[0] !in keys[1..];
    }
  }

  /** The cache never holds more than five segments. */
  lemma CacheBounded(e: VideoEnhancement)
    requires e.Valid()
    ensures |e.cache| <= MaxCachedSegments
  {
    DistinctKeysCount(e.order);
    assert e.cache.Keys == set k | k in e.order;
  }

  /**
   * While one enhancement awaits its processors, a second call for another
   * segment resolves to `null` and changes nothing; when the first one
   * completes, its segment is cached.
   */
  method OverlappingCallsScenario(e: VideoEnhancement, first: Segment, second: Segment, data: nat)
    requires e.Valid() && !e.isEnhancing && first.sn !in e.cache
    modifies e
    ensures first.sn in e.cache && e.cache[first.sn].data == Some(data)
    ensures !e.isEnhancing
  {
    var started := e.Begin(Some(first));
    assert started == Started;
    var refused := e.Begin(Some(second));
    assert refused == Blocked;
    var outcome := e.Complete(first, Produced(Some(data)));
  }
}
