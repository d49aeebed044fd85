/**
 Layouts: which chunk byte a file byte is stored in (src/meta/dfs.rs).  The
 extent checks of a commit, the rule for inheriting an extent from the base
 version, and what both mean byte by byte.
 */
module FileLayouts {
  import opened Records

  function FileEnd(e: Extent): nat { e.fileOffset + e.length }

  function ChunkEnd(e: Extent): nat { e.chunkOffset + e.length }

  predicate Covers(e: Extent, b: nat) { e.fileOffset <= b < FileEnd(e) }

  // ------------------------------------------------------------- well-shaped

  predicate FitsFile(e: Extent, fileLength: nat) { e.length > 0 && FileEnd(e) <= fileLength }

  /** Extents are non-empty, in order, disjoint and inside the file. */
  ghost predicate Shaped(extents: seq<Extent>, fileLength: nat)
  {
    && (forall i {:trigger FitsFile(extents[i], fileLength)} :: 0 <= i < |extents| ==> FitsFile(extents[i], fileLength))
    && (forall i, j :: 0 <= i < j < |extents| ==> FileEnd(extents[i]) <= extents[j].fileOffset)
  }

  /** `extent_is_inherited`, for one candidate of the base. */
  predicate InheritsFrom(e: Extent, base: Extent)
  {
    && FileEnd(e) <= MAX64 && FileEnd(base) <= MAX64
    && base.chunk == e.chunk
    && base.fileOffset <= e.fileOffset && FileEnd(e) <= FileEnd(base)
    && base.chunkOffset + (e.fileOffset - base.fileOffset) == e.chunkOffset
  }

  predicate Inherited(e: Extent, base: LayoutRoot)
  {
    exists i :: 0 <= i < |base.extents| && InheritsFrom(e, base.extents[i])
  }

  /** The chunk a commit brings with it under this id, if any. */
  function Brought(receipts: seq<ChunkReceipt>, id: ChunkId): Option<ChunkObject>
  {
    if receipts == [] then None
    else if receipts[0].chunk.id == id then Some(receipts[0].chunk)
    else Brought(receipts[1..], id)
  }

  lemma {:induction false} BroughtFrom(receipts: seq<ChunkReceipt>, id: ChunkId)
    requires Brought(receipts, id).Some?
    ensures exists i :: 0 <= i < |receipts| && receipts[i].chunk == Brought(receipts, id).value
    ensures Brought(receipts, id).value.id == id
  {
    if receipts[0].chunk.id == id {
      assert receipts[0].chunk == Brought(receipts, id).value;
    } else {
      BroughtFrom(receipts[1..], id);
      var i :| 0 <= i < |receipts[1..]| && receipts[1..][i].chunk == Brought(receipts[1..], id).value;
      assert receipts[i + 1].chunk == Brought(receipts, id).value;
    }
  }

  /** Every extent lies in a chunk the commit proves durable, or is inherited from the base version. */
  predicate Sourced(e: Extent, receipts: seq<ChunkReceipt>, base: Option<LayoutRoot>)
  {
    && ChunkEnd(e) <= MAX64
    && (var brought := Brought(receipts, e.chunk);
        if brought.Some? then ChunkEnd(e) <= brought.value.length
        else base.Some? && Inherited(e, base.value))
  }

  ghost predicate AllSourced(extents: seq<Extent>, receipts: seq<ChunkReceipt>, base: Option<LayoutRoot>)
  {
    forall i {:trigger Sourced(extents[i], receipts, base)} :: 0 <= i < |extents| ==>
      Sourced(extents[i], receipts, base)
  }

  /** The extent loop of `commit_file_version`. */
  method ValidateExtents(extents: seq<Extent>, fileLength: U64, receipts: seq<ChunkReceipt>, base: Option<LayoutRoot>)
    returns (ok: bool)
    ensures ok <==> Shaped(extents, fileLength) && AllSourced(extents, receipts, base)
  {
    var previousEnd: nat := 0;
    for i := 0 to |extents|
      invariant Shaped(extents[..i], fileLength) && AllSourced(extents[..i], receipts, base)
      invariant previousEnd == if i == 0 then 0 else FileEnd(extents[i - 1])
      invariant forall j :: 0 <= j < i ==> FileEnd(extents[j]) <= previousEnd
    {
      var e := extents[i];
      var last := extents[..i + 1];
      assert last[i] == e;
      if FileEnd(e) > MAX64 || e.length == 0 || e.fileOffset < previousEnd || FileEnd(e) > fileLength {
        assert !FitsFile(extents[i], fileLength) || (i > 0 && FileEnd(extents[i - 1]) > extents[i].fileOffset);
        return false;
      }
      if !Sourced(e, receipts, base) {
        assert !Sourced(extents[i], receipts, base);
        return false;
      }
      assert forall j :: 0 <= j < i ==> last[j] == extents[..i][j];
      forall j | 0 <= j < |last| ensures FitsFile(last[j], fileLength) && Sourced(last[j], receipts, base) {
        if j < i { assert FitsFile(extents[..i][j], fileLength) && Sourced(extents[..i][j], receipts, base); }
      }
      previousEnd := FileEnd(e);
    }
    assert extents[..|extents|] == extents;
    return true;
  }

  // ---------------------------------------------------------------- meaning

  /** Where the file's byte `b` is stored. */
  ghost function Resolve(extents: seq<Extent>, b: nat): Option<(ChunkId, nat)>
  {
    if i :| 0 <= i < |extents| && Covers(extents[i], b)
    then Some((extents[i].chunk, extents[i].chunkOffset + (b - extents[i].fileOffset)))
    else None
  }

  lemma OneExtentPerByte(extents: seq<Extent>, fileLength: nat, b: nat, i: nat, j: nat)
    requires Shaped(extents, fileLength) && i < |extents| && j < |extents| && Covers(extents[i], b)
    requires Covers(extents[j], b)
    ensures i == j
  {
  }

  lemma ResolveAt(extents: seq<Extent>, fileLength: nat, b: nat, i: nat)
    requires Shaped(extents, fileLength) && i < |extents| && Covers(extents[i], b)
    ensures Resolve(extents, b) == Some((extents[i].chunk, extents[i].chunkOffset + (b - extents[i].fileOffset)))
  {
    forall j | 0 <= j < |extents| && Covers(extents[j], b) ensures j == i {
      OneExtentPerByte(extents, fileLength, b, i, j);
    }
  }

  /** Each byte of an extent accepted as inherited is the byte it was in the base version. */
  lemma InheritedByteIsSame(l: LayoutRoot, base: LayoutRoot, i: nat, b: nat)
    requires Shaped(l.extents, l.fileLength) && Shaped(base.extents, base.fileLength)
    requires i < |l.extents| && Inherited(l.extents[i], base) && Covers(l.extents[i], b)
    ensures Resolve(l.extents, b) == Resolve(base.extents, b) && Resolve(base.extents, b).Some?
  {
    var e := l.extents[i];
    var j :| 0 <= j < |base.extents| && InheritsFrom(e, base.extents[j]);
    ResolveAt(l.extents, l.fileLength, b, i);
    ResolveAt(base.extents, base.fileLength, b, j);
  }

  /** An inherited extent stays inside the chunk its base extent lies in. */
  lemma InheritedStaysInside(e: Extent, base: LayoutRoot)
    requires Inherited(e, base)
    requires forall i :: 0 <= i < |base.extents| ==> ChunkEnd(base.extents[i]) <= base.extents[i].chunk.length
    ensures ChunkEnd(e) <= e.chunk.length
    ensures exists i :: 0 <= i < |base.extents| && base.extents[i].chunk == e.chunk
  {
    var i :| 0 <= i < |base.extents| && InheritsFrom(e, base.extents[i]);
    assert base.extents[i].chunk == e.chunk;
  }
}
