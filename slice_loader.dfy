/**
 * The client-side slice loader the three detail pages share: the full list
 * of related IDs is known up front (extracted from the record's URLs), and
 * each step fetches the next slice of at most six of them. A slice's fetches
 * are joined: either all results arrive, in ID order, or the slice fails.
 */
module SliceLoading {
  import opened Wrappers
  import opened Text
  import opened Js

  /** The number of IDs requested per step. */
  const SliceSize: nat := 6

  function Min(a: int, b: int): int {
    if a <= b then a else b
  }

  /** `ids.slice(index, index + 6)`: the next at most six IDs, in order, starting at `index`. */
  function Slice(ids: seq<NumericId>, index: nat): (r: seq<NumericId>)
    ensures |r| == if index < |ids| then Min(index + SliceSize, |ids|) - index else 0
    ensures forall k :: 0 <= k < |r| ==> r[k] == ids[index + k]
  {
    if index >= |ids| then [] else ids[index..Min(index + SliceSize, |ids|)]
  }

  /** The IDs requested by successive slices from `index` on: one slice per step of six. */
  function SlicesFrom(ids: seq<NumericId>, index: nat): seq<NumericId>
    decreases |ids| - index
  {
    if index >= |ids| then [] else Slice(ids, index) + SlicesFrom(ids, index + SliceSize)
  }

  /** Loading slice after slice from `index` requests every remaining ID exactly once, in order. */
  lemma {:induction false} SlicesCover(ids: seq<NumericId>, index: nat)
    requires index <= |ids|
    ensures SlicesFrom(ids, index) == ids[index..]
    decreases |ids| - index
  {
    if index < |ids| {
      if index + SliceSize < |ids| {
        SlicesCover(ids, index + SliceSize);
        assert ids[index..] == ids[index..index + SliceSize] + ids[index + SliceSize..];
      }
    }
  }

  /** The IDs loaded so far, followed by the next slice, are the IDs loaded after one more step. */
  lemma {:induction false} SliceExtendsPrefix(ids: seq<NumericId>, index: nat)
    ensures ids[..Min(index, |ids|)] + Slice(ids, index) == ids[..Min(index + SliceSize, |ids|)]
  {
    if index < |ids| {
      assert ids[..Min(index + SliceSize, |ids|)] == ids[..index] + ids[index..Min(index + SliceSize, |ids|)];
    }
  }

  /** `+url.split('/').pop()`: the number after the last '/' of a record URL. */
  function ExtractId(url: string): (r: NumericId)
    ensures AllDigits(LastSegment(url)) ==> r == Number(DecimalValue(LastSegment(url)))
  {
    UnaryPlus(LastSegment(url))
  }

  /** The IDs of a record's related URLs, one per URL and in the same order. */
  function ExtractIds(urls: seq<string>): (r: seq<NumericId>)
    ensures |r| == |urls|
    ensures forall i :: 0 <= i < |urls| ==> r[i] == ExtractId(urls[i])
  {
    seq(|urls|, i requires 0 <= i < |urls| => ExtractId(urls[i]))
  }

  /** A URL ending in '/' and a run of digits yields the value of those digits. */
  lemma {:induction false} ExtractIdOfLink(prefix: string, digits: string)
    requires AllDigits(digits)
    ensures ExtractId(prefix + "/" + digits) == Number(DecimalValue(digits))
  {
    LastSegmentAfterSlash(prefix, digits);
  }

  class SliceLoader<T> {
    /** All related IDs. */
    var ids: seq<NumericId>
    /** The position of the next slice. */
    var index: nat
    /** The records loaded so far. */
    var items: seq<T>
    var loadingFirst: bool
    var loadingMore: bool
    var hasMore: bool

    constructor ()
      ensures IsInitial()
    {
      ids := [];
      index := 0;
      items := [];
      loadingFirst := false;
      loadingMore := false;
      hasMore := true;
    }

    /** The state a detail page starts in: no IDs, nothing loaded, more to come. */
    predicate IsInitial()
      reads this
    {
      ids == [] && index == 0 && items == [] && !loadingFirst && !loadingMore && hasMore
    }

    /** The guard of the scroll handlers: no slice in flight and more to come. */
    predicate CanLoadMore()
      reads this
    {
      !loadingMore && !loadingFirst && hasMore
    }

    /** Every completed slice delivered one record per ID: the list is as long as the IDs passed. */
    predicate CountMatchesIndex()
      reads this
    {
      |items| == Min(index, |ids|)
    }

    /** The slice the next step requests, or `None` once the index has passed the end. */
    function NextSlice(): Option<seq<NumericId>>
      reads this
    {
      if index < |ids| then Some(Slice(ids, index)) else None
    }

    /**
     * The state right after a step began on the IDs `newIds`: past the end no
     * more records are offered; otherwise the first slice sets `loadingFirst`
     * and later ones `loadingMore`. The index and the list are kept.
     */
    twostate predicate Started(newIds: seq<NumericId>)
      reads this
    {
      && ids == newIds && index == old(index) && items == old(items)
      && (index >= |ids| ==> !hasMore && loadingFirst == old(loadingFirst) && loadingMore == old(loadingMore))
      && (index < |ids| ==>
            && hasMore == old(hasMore)
            && (index == 0 ==> loadingFirst && loadingMore == old(loadingMore))
            && (index != 0 ==> loadingMore && loadingFirst == old(loadingFirst)))
    }

    /**
     * The state right after a slice's results arrived: they are appended in
     * order, the index moves on by six, more is offered while the index is
     * before the end, and both flags are clear.
     */
    twostate predicate Joined(results: seq<T>)
      reads this
    {
      && items == old(items) + results
      && index == old(index) + SliceSize
      && ids == old(ids)
      && (hasMore <==> index < |ids|)
      && !loadingFirst && !loadingMore
    }

    /** The state right after a slice failed: only the flags change, to clear. */
    twostate predicate Dropped()
      reads this
    {
      && !loadingFirst && !loadingMore
      && items == old(items) && index == old(index) && ids == old(ids) && hasMore == old(hasMore)
    }

    method SetIds(newIds: seq<NumericId>)
      modifies this
      ensures ids == newIds
      ensures index == old(index) && items == old(items) && hasMore == old(hasMore)
      ensures loadingFirst == old(loadingFirst) && loadingMore == old(loadingMore)
    {
      ids := newIds;
    }

    /** A record without related URLs offers nothing more. */
    method MarkExhausted()
      modifies this
      ensures !hasMore
      ensures ids == old(ids) && index == old(index) && items == old(items)
      ensures loadingFirst == old(loadingFirst) && loadingMore == old(loadingMore)
    {
      hasMore := false;
    }

    /** The synchronous part of a step: the guard, the flags and the slice to request. */
    method Start() returns (slice: Option<seq<NumericId>>)
      modifies this
      ensures Started(old(ids))
      ensures slice == NextSlice()
    {
      if index >= |ids| {
        hasMore := false;
        return None;
      }
      if index == 0 {
        loadingFirst := true;
      } else {
        loadingMore := true;
      }
      slice := Some(Slice(ids, index));
    }

    method Succeed(results: seq<T>)
      modifies this
      ensures Joined(results)
      ensures old(CountMatchesIndex()) && |results| == |Slice(old(ids), old(index))| ==> CountMatchesIndex()
    {
      items := items + results;
      index := index + SliceSize;
      hasMore := index < |ids|;
      loadingFirst := false;
      loadingMore := false;
    }

    method Fail()
      modifies this
      ensures Dropped()
    {
      loadingFirst := false;
      loadingMore := false;
    }
  }

  /**
   * Eight related IDs load in two steps: six, then the remaining two; after
   * the second step the list holds eight records, nothing more is offered
   * and a further step requests nothing.
   */
  method LoadEightInTwoSteps() returns (first: Option<seq<NumericId>>, second: Option<seq<NumericId>>, count: int, more: bool, third: Option<seq<NumericId>>)
    ensures first == Some([Number(1), Number(2), Number(3), Number(4), Number(5), Number(6)])
    ensures second == Some([Number(7), Number(8)])
    ensures count == 8 && !more && third == None
  {
    var ids := [Number(1), Number(2), Number(3), Number(4), Number(5), Number(6), Number(7), Number(8)];
    var loader := new SliceLoader<int>();
    loader.SetIds(ids);
    first := loader.Start();
    assert ids[0..6] == [Number(1), Number(2), Number(3), Number(4), Number(5), Number(6)];
    loader.Succeed([1, 2, 3, 4, 5, 6]);
    second := loader.Start();
    assert ids[6..8] == [Number(7), Number(8)];
    loader.Succeed([7, 8]);
    third := loader.Start();
    count := |loader.items|;
    more := loader.hasMore;
  }
}
