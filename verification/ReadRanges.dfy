/**
 Read authorisation (src/meta/dfs.rs): the ranges of one chunk a layout refers
 to, sorted and merged, and the test whether a requested range is covered.
 The merged form decides exactly the rule "every byte of the range is a byte
 of some extent, clipped to the file length".
 */
module ReadRanges {
  import opened Ordering
  import opened Records
  import opened FileLayouts

  // The simple rule, byte by byte.

  function Clipped(layout: LayoutRoot, e: Extent): nat { Min(e.length, SatSub(layout.fileLength, e.fileOffset)) }

  predicate ExtentHolds(layout: LayoutRoot, chunk: ChunkObject, e: Extent, b: int)
  {
    e.chunk == chunk.id && e.chunkOffset <= b < e.chunkOffset + Clipped(layout, e)
  }

  ghost predicate Readable(layout: LayoutRoot, chunk: ChunkObject, b: int)
  {
    exists i :: 0 <= i < |layout.extents| && ExtentHolds(layout, chunk, layout.extents[i], b)
  }

  predicate Exceeds(layout: LayoutRoot, chunk: ChunkObject, e: Extent)
  {
    e.chunk == chunk.id && e.chunkOffset + Clipped(layout, e) > chunk.length
  }

  // Intervals as start and end.

  datatype Span = Span(start: nat, end: nat)

  ghost predicate InAny(spans: seq<Span>, b: int)
  {
    exists k :: 0 <= k < |spans| && spans[k].start <= b < spans[k].end
  }

  ghost predicate Proper(spans: seq<Span>, limit: nat)
  {
    forall k :: 0 <= k < |spans| ==> spans[k].start < spans[k].end <= limit
  }

  predicate Before(a: Span, b: Span) { a.start < b.start || (a.start == b.start && a.end <= b.end) }

  ghost predicate Ordered(spans: seq<Span>)
  {
    forall i, j :: 0 <= i < j < |spans| ==> spans[i].start <= spans[j].start
  }

  /** Between two merged intervals there is at least one byte that neither holds. */
  ghost predicate Apart(spans: seq<Span>)
  {
    forall i, j :: 0 <= i < j < |spans| ==> spans[i].end < spans[j].start
  }

  // ------------------------------------------------------- sort_unstable

  lemma BeforeIsOrder()
    ensures IsOrder(Before)
  {
  }

  /** Sorting keeps the spans and puts them in order of their starts. */
  lemma SortedSpans(spans: seq<Span>, limit: nat)
    ensures Ordered(Sorted(spans, Before))
    ensures forall x :: InAny(Sorted(spans, Before), x) <==> InAny(spans, x)
    ensures Proper(spans, limit) ==> Proper(Sorted(spans, Before), limit)
  {
    BeforeIsOrder();
    SortedInOrder(spans, Before);
    forall y ensures y in Sorted(spans, Before) <==> y in spans { SortedHolds(spans, Before, y); }
    SameMembersSameBytes(spans, Sorted(spans, Before), limit);
    SameMembersSameBytes(Sorted(spans, Before), spans, limit);
  }

  lemma SameMembersSameBytes(a: seq<Span>, b: seq<Span>, limit: nat)
    requires forall y :: y in a <==> y in b
    ensures forall x :: InAny(a, x) ==> InAny(b, x)
    ensures Proper(a, limit) ==> Proper(b, limit)
  {
    forall x | InAny(a, x) ensures InAny(b, x) {
      var k :| 0 <= k < |a| && a[k].start <= x < a[k].end;
      assert a[k] in b;
    }
    if Proper(a, limit) {
      forall k | 0 <= k < |b| ensures b[k].start < b[k].end <= limit { assert b[k] in a; }
    }
  }

  // ------------------------------------------------------------ the methods

  /** The filtering loop: one span for each extent of the chunk, or a failure. */
  method ClippedSpans(layout: LayoutRoot, chunk: ChunkObject) returns (r: Option<seq<Span>>)
    ensures r.None? <==> exists i :: 0 <= i < |layout.extents| && Exceeds(layout, chunk, layout.extents[i])
    ensures r.Some? ==> Proper(r.value, chunk.length) && forall b :: InAny(r.value, b) <==> Readable(layout, chunk, b)
  {
    var spans: seq<Span> := [];
    for i := 0 to |layout.extents|
      invariant Proper(spans, chunk.length)
      invariant forall j :: 0 <= j < i ==> !Exceeds(layout, chunk, layout.extents[j])
      invariant forall b ::
        InAny(spans, b) <==> (exists j :: 0 <= j < i && ExtentHolds(layout, chunk, layout.extents[j], b))
    {
      var e := layout.extents[i];
      if e.chunk == chunk.id {
        var length := Clipped(layout, e);
        if e.chunkOffset + length > chunk.length {
          assert Exceeds(layout, chunk, layout.extents[i]);
          return None;
        }
        if length != 0 {
          SpanAdded(spans, Span(e.chunkOffset, e.chunkOffset + length));
          spans := spans + [Span(e.chunkOffset, e.chunkOffset + length)];
        }
      }
    }
    return Some(spans);
  }

  lemma SpanAdded(spans: seq<Span>, x: Span)
    ensures forall b :: InAny(spans + [x], b) <==> InAny(spans, b) || x.start <= b < x.end
  {
    forall b ensures InAny(spans + [x], b) <==> InAny(spans, b) || x.start <= b < x.end {
      if InAny(spans, b) {
        var k :| 0 <= k < |spans| && spans[k].start <= b < spans[k].end;
        assert (spans + [x])[k] == spans[k];
      }
      if x.start <= b < x.end { assert (spans + [x])[|spans|] == x; }
    }
  }

  /** Growing the last span to a span that starts inside or right after it adds exactly the new bytes. */
  lemma LastGrown(spans: seq<Span>, x: Span)
    requires |spans| > 0 && spans[|spans| - 1].start <= x.start <= spans[|spans| - 1].end
    ensures var last := spans[|spans| - 1];
      var grown := spans[|spans| - 1 := Span(last.start, Max(last.end, x.end))];
      forall b :: InAny(grown, b) <==> InAny(spans, b) || x.start <= b < x.end
  {
    var n := |spans| - 1;
    var grown := spans[n := Span(spans[n].start, Max(spans[n].end, x.end))];
    forall b ensures InAny(grown, b) <==> InAny(spans, b) || x.start <= b < x.end {
      if InAny(spans, b) {
        var k :| 0 <= k < |spans| && spans[k].start <= b < spans[k].end;
        assert grown[k].start <= b < grown[k].end;
      }
      if x.start <= b < x.end { assert grown[n].start <= b < grown[n].end; }
      if InAny(grown, b) {
        var k :| 0 <= k < |grown| && grown[k].start <= b < grown[k].end;
        if k != n { assert spans[k].start <= b < spans[k].end; }
        if k == n && b < spans[n].end { assert spans[n].start <= b < spans[n].end; }
      }
    }
  }

  /** The merging loop over sorted spans. */
  method Merge(spans: seq<Span>, limit: nat) returns (merged: seq<Span>)
    requires Ordered(spans) && Proper(spans, limit)
    ensures Apart(merged) && Proper(merged, limit)
    ensures forall b :: InAny(merged, b) <==> InAny(spans, b)
  {
    merged := [];
    for i := 0 to |spans|
      invariant Apart(merged) && Proper(merged, limit)
      invariant |merged| > 0 ==> i > 0 && merged[|merged| - 1].start <= spans[i - 1].start
      invariant forall b :: InAny(merged, b) <==> InAny(spans[..i], b)
    {
      var x := spans[i];
      assert spans[..i + 1] == spans[..i] + [x];
      SpanAdded(spans[..i], x);
      if |merged| > 0 && x.start <= merged[|merged| - 1].end {
        LastGrown(merged, x);
        var last := merged[|merged| - 1];
        merged := merged[|merged| - 1 := Span(last.start, Max(last.end, x.end))];
      } else {
        SpanAdded(merged, x);
        merged := merged + [x];
      }
    }
    assert spans[..|spans|] == spans;
  }

  datatype Interval = Interval(start: U64, length: U64)

  ghost predicate InInterval(r: Interval, b: int) { r.start <= b < r.start + r.length }

  /** Merged ranges: non-empty, inside 64 bits, with a gap between any two. */
  ghost predicate Disjoint(rs: seq<Interval>)
  {
    && (forall k :: 0 <= k < |rs| ==> rs[k].length > 0 && rs[k].start + rs[k].length <= MAX64)
    && (forall i, j :: 0 <= i < j < |rs| ==> rs[i].start + rs[i].length < rs[j].start)
  }

  ghost predicate Holds(rs: seq<Interval>, b: int) { exists k :: 0 <= k < |rs| && InInterval(rs[k], b) }

  /** `read_chunk_intervals` */
  method ReadChunkIntervals(layout: LayoutRoot, chunk: ChunkObject) returns (r: Option<seq<Interval>>)
    ensures r.None? <==> exists i :: 0 <= i < |layout.extents| && Exceeds(layout, chunk, layout.extents[i])
    ensures r.Some? ==> Disjoint(r.value) && forall b :: Holds(r.value, b) <==> Readable(layout, chunk, b)
  {
    var clipped := ClippedSpans(layout, chunk);
    if clipped.None? { return None; }
    var sorted := Sorted(clipped.value, Before);
    SortedSpans(clipped.value, chunk.length);
    var merged := Merge(sorted, chunk.length);
    return Some(AsIntervals(merged, chunk.length));
  }

  /** Starts and lengths instead of starts and ends. */
  function AsIntervals(spans: seq<Span>, ghost limit: U64): (rs: seq<Interval>)
    requires Proper(spans, limit)
    ensures forall b :: Holds(rs, b) <==> InAny(spans, b)
    ensures Apart(spans) ==> Disjoint(rs)
  {
    assert forall k :: 0 <= k < |spans| ==> spans[k].start < spans[k].end <= MAX64;
    var rs := seq(|spans|, k requires 0 <= k < |spans| => Interval(spans[k].start, spans[k].end - spans[k].start));
    SameBytes(spans, rs);
    rs
  }

  lemma SameBytes(spans: seq<Span>, rs: seq<Interval>)
    requires |rs| == |spans|
    requires forall k :: 0 <= k < |spans| ==>
      rs[k].start == spans[k].start && rs[k].start + rs[k].length == spans[k].end
    ensures forall b :: Holds(rs, b) <==> InAny(spans, b)
  {
    forall b ensures Holds(rs, b) <==> InAny(spans, b) {
      if InAny(spans, b) {
        var k :| 0 <= k < |spans| && spans[k].start <= b < spans[k].end;
        assert InInterval(rs[k], b);
      }
    }
  }

  /** `read_range_covered` */
  predicate RangeCovered(rs: seq<Interval>, offset: U64, length: U64)
  {
    && length != 0
    && offset + length <= MAX64
    && exists k :: 0 <= k < |rs| && rs[k].start <= offset && rs[k].start + rs[k].length <= MAX64
         && offset + length <= rs[k].start + rs[k].length
  }

  /** Membership of a range in one merged interval is membership of each of its bytes. */
  lemma CoveredIsBytewise(layout: LayoutRoot, chunk: ChunkObject, rs: seq<Interval>, offset: U64, length: U64)
    requires Disjoint(rs) && forall b :: Holds(rs, b) <==> Readable(layout, chunk, b)
    ensures RangeCovered(rs, offset, length) <==>
      && length != 0 && offset + length <= MAX64
      && forall b :: offset <= b < offset + length ==> Readable(layout, chunk, b)
  {
    if RangeCovered(rs, offset, length) {
      var k :| 0 <= k < |rs| && rs[k].start <= offset && offset + length <= rs[k].start + rs[k].length;
      forall b | offset <= b < offset + length ensures Readable(layout, chunk, b) {
        assert InInterval(rs[k], b);
        assert Holds(rs, b);
      }
    }
    if length != 0 && offset + length <= MAX64
       && forall b :: offset <= b < offset + length ==> Readable(layout, chunk, b) {
      assert Readable(layout, chunk, offset);
      assert Holds(rs, offset);
      var k :| 0 <= k < |rs| && InInterval(rs[k], offset);
      IntervalReaches(rs, k, offset, length);
    }
  }

  lemma GapAfter(rs: seq<Interval>, k: nat)
    requires Disjoint(rs) && k < |rs|
    ensures !Holds(rs, rs[k].start + rs[k].length)
  {
  }

  lemma IntervalReaches(rs: seq<Interval>, k: nat, offset: U64, length: U64)
    requires Disjoint(rs) && k < |rs| && InInterval(rs[k], offset)
    requires forall b :: offset <= b < offset + length ==> Holds(rs, b)
    ensures offset + length <= rs[k].start + rs[k].length
  {
    GapAfter(rs, k);
  }

  /** No layout a commit accepts makes the interval computation fail. */
  lemma ShapedNeverExceeds(layout: LayoutRoot, chunk: ChunkObject, i: nat)
    requires Shaped(layout.extents, layout.fileLength) && i < |layout.extents| && ContentDerived(chunk)
    requires ChunkEnd(layout.extents[i]) <= layout.extents[i].chunk.length
    ensures !Exceeds(layout, chunk, layout.extents[i])
    ensures layout.extents[i].chunk == chunk.id ==> Clipped(layout, layout.extents[i]) == layout.extents[i].length
  {
    assert FitsFile(layout.extents[i], layout.fileLength);
  }
}
