/**
 The streaming verified read (src/node/chunk.rs): one pass over the file feeds
 a hasher and scatters the requested ranges.  Whatever the file does, short
 reads and changes under way included, success means that the bytes handed out
 are the bytes that were hashed.
 */
module VerifiedRead {
  import opened Records

  const SCRATCH: nat := 64 * 1024

  datatype RangeCopy = RangeCopy(chunkOffset: U64, length: nat, outputOffset: nat)

  /**
   The open file as its reader sees it: its length when asked before and after
   the scan, and what each read returns if it does not fail.  The contents may
   change between reads, so the answer depends on how many reads came before.
   */
  datatype FileView = FileView(before: Option<nat>, after: Option<nat>, read: (nat, nat, nat) -> Option<seq<Byte>>)
  {
    /** A read returns at most what was asked for. */
    function ReadAt(step: nat, position: nat, limit: nat): (r: Option<seq<Byte>>)
      ensures r.Some? ==> |r.value| <= limit
    {
      var r := read(step, position, limit);
      if r.Some? && |r.value| > limit then Some(r.value[..limit]) else r
    }
  }

  datatype ReadError = OutOfRange | IoFailure | DataLoss

  datatype Outcome<T> = Good(value: T) | Bad(error: ReadError)

  // ----------------------------------------------------------- what is hashed

  function Limit(length: nat, position: nat): nat
    requires position <= length
  {
    Min(length - position, SCRATCH)
  }

  /** All bytes from `position` on, as one scan with these reads sees them. */
  function Scanned(file: FileView, length: nat, step: nat, position: nat): Outcome<seq<Byte>>
    requires position <= length
    decreases length - position
  {
    if position == length then Good([])
    else
      var r := file.ReadAt(step, position, Limit(length, position));
      if r.None? then Bad(IoFailure)
      else if r.value == [] then Bad(DataLoss)
      else
        match Scanned(file, length, step + 1, position + |r.value|)
        case Good(rest) => Good(r.value + rest)
        case Bad(e) => Bad(e)
  }

  /** The scan's verdict on the file: the bytes that were hashed, or why not. */
  function Verdict(file: FileView, chunk: ChunkObject, hash: Hash): Outcome<seq<Byte>>
  {
    if file.before.None? then Bad(IoFailure)
    else if file.before.value != chunk.length then Bad(DataLoss)
    else
      match Scanned(file, chunk.length, 0, 0)
      case Bad(e) => Bad(e)
      case Good(bytes) =>
        if file.after.None? then Bad(IoFailure)
        else if file.after.value != chunk.length || hash(bytes) != chunk.digest then Bad(DataLoss)
        else Good(bytes)
  }

  lemma {:induction false} ScannedLength(file: FileView, length: nat, step: nat, position: nat)
    requires position <= length && Scanned(file, length, step, position).Good?
    ensures |Scanned(file, length, step, position).value| == length - position
    decreases length - position
  {
    if position < length {
      var r := file.ReadAt(step, position, Limit(length, position));
      ScannedLength(file, length, step + 1, position + |r.value|);
    }
  }

  /** Bytes that pass are the right number of bytes with the right digest. */
  lemma PassedIsGenuine(file: FileView, chunk: ChunkObject, hash: Hash)
    requires Verdict(file, chunk, hash).Good?
    ensures |Verdict(file, chunk, hash).value| == chunk.length && hash(Verdict(file, chunk, hash).value) == chunk.digest
  {
    ScannedLength(file, chunk.length, 0, 0);
  }

  /** A file that does not change or fail: every read returns some of the bytes at its position, if there are any. */
  ghost predicate Stable(file: FileView, data: seq<Byte>)
  {
    && file.before == Some(|data|) && file.after == Some(|data|)
    && forall step: nat, position: nat, limit: nat {:trigger file.ReadAt(step, position, limit)} ::
         position <= |data| && 0 < limit ==> ReadsFrom(file.ReadAt(step, position, limit), data, position)
  }

  ghost predicate ReadsFrom(r: Option<seq<Byte>>, data: seq<Byte>, position: nat)
    requires position <= |data|
  {
    && r.Some? && position + |r.value| <= |data| && r.value == data[position..position + |r.value|]
    && (position < |data| ==> r.value != [])
  }

  lemma {:induction false} StableScan(file: FileView, data: seq<Byte>, step: nat, position: nat)
    requires Stable(file, data) && position <= |data|
    ensures Scanned(file, |data|, step, position) == Good(data[position..])
    decreases |data| - position
  {
    if position == |data| {
      assert data[position..] == [];
    } else {
      var r := file.ReadAt(step, position, Limit(|data|, position));
      assert ReadsFrom(r, data, position);
      StableScan(file, data, step + 1, position + |r.value|);
      assert data[position..] == r.value + data[position + |r.value|..];
    }
  }

  /** On a file that does not change, verification passes exactly for the chunk's bytes, however short the reads. */
  lemma VerifyIsExact(file: FileView, data: seq<Byte>, chunk: ChunkObject, hash: Hash)
    requires Stable(file, data)
    ensures Verdict(file, chunk, hash) ==
      if |data| == chunk.length && hash(data) == chunk.digest then Good(data) else Bad(DataLoss)
  {
    if |data| == chunk.length {
      StableScan(file, data, 0, 0);
      assert data[0..] == data;
    }
  }

  // -------------------------------------------------------------------- ranges

  /** How much of the range the chunk can serve. */
  function Allowed(r: RangeCopy, length: nat): nat
  {
    if r.chunkOffset >= length || r.length == 0 then 0 else Min(length - r.chunkOffset, r.length)
  }

  /** Output position `x` belongs to the range. */
  predicate Covers(r: RangeCopy, length: nat, x: int) { r.outputOffset <= x < r.outputOffset + Allowed(r, length) }

  /** The chunk position that output position `x` of the range shows. */
  function Source(r: RangeCopy, x: int): int { r.chunkOffset + (x - r.outputOffset) }

  ghost predicate Fits(ranges: seq<RangeCopy>, length: nat, size: nat)
  {
    forall i :: 0 <= i < |ranges| ==> ranges[i].outputOffset + Allowed(ranges[i], length) <= size
  }

  /** No other range asks for the same output position. */
  ghost predicate Alone(ranges: seq<RangeCopy>, length: nat, i: int, x: int)
    requires 0 <= i < |ranges|
  {
    forall j :: 0 <= j < |ranges| && j != i ==> !Covers(ranges[j], length, x)
  }

  /** Output position `x` after the chunk's bytes below `upTo` were scattered to range `i`. */
  ghost predicate Shows(out: seq<Byte>, ranges: seq<RangeCopy>, length: nat, fed: seq<Byte>, upTo: nat, i: int, x: int)
    requires 0 <= i < |ranges|
  {
    (&& Covers(ranges[i], length, x) && Alone(ranges, length, i, x)
     && 0 <= x < |out| && 0 <= Source(ranges[i], x) < upTo <= |fed|)
    ==> out[x] == fed[Source(ranges[i], x)]
  }

  ghost predicate Untouched(out: seq<Byte>, was: seq<Byte>, ranges: seq<RangeCopy>, length: nat)
  {
    && |out| == |was|
    && forall x :: 0 <= x < |out| && (forall i :: 0 <= i < |ranges| ==> !Covers(ranges[i], length, x)) ==>
      out[x] == was[x]
  }

  /** The first `j` ranges show the bytes below `next`, the others those below `position`. */
  ghost predicate Scattered(out: seq<Byte>, ranges: seq<RangeCopy>, length: nat, fed: seq<Byte>, position: nat,
                            next: nat, j: nat)
  {
    forall i, x {:trigger ShowsIn(out, ranges, length, fed, position, next, j, i, x)} ::
      0 <= i < |ranges| ==> ShowsIn(out, ranges, length, fed, position, next, j, i, x)
  }

  ghost predicate ShowsIn(out: seq<Byte>, ranges: seq<RangeCopy>, length: nat, fed: seq<Byte>, position: nat, next: nat,
                          j: nat, i: int, x: int)
    requires 0 <= i < |ranges|
  {
    Shows(out, ranges, length, fed, if i < j then next else position, i, x)
  }

  function Counts(ranges: seq<RangeCopy>, length: nat): (counts: seq<nat>)
    ensures |counts| == |ranges| && forall i :: 0 <= i < |counts| ==> counts[i] == Allowed(ranges[i], length)
  {
    seq(|ranges|, i requires 0 <= i < |ranges| => Allowed(ranges[i], length))
  }

  ghost predicate AnyActive(ranges: seq<RangeCopy>, length: nat)
  {
    exists i :: 0 <= i < |ranges| && Allowed(ranges[i], length) > 0
  }

  /** The first loop: how much of each range can be served, and whether it fits the buffer. */
  method Clamp(ranges: seq<RangeCopy>, length: nat, size: nat) returns (counts: Option<seq<nat>>, active: bool)
    ensures counts.Some? <==> Fits(ranges, length, size)
    ensures counts.Some? ==> counts.value == Counts(ranges, length) && (active <==> AnyActive(ranges, length))
  {
    var made: seq<nat> := [];
    active := false;
    for i := 0 to |ranges|
      invariant |made| == i && forall k :: 0 <= k < i ==> made[k] == Allowed(ranges[k], length)
      invariant forall k :: 0 <= k < i ==> ranges[k].outputOffset + Allowed(ranges[k], length) <= size
      invariant active <==> exists k :: 0 <= k < i && Allowed(ranges[k], length) > 0
    {
      var allowed := Allowed(ranges[i], length);
      if ranges[i].outputOffset + allowed > size { return None, active; }
      made := made + [allowed];
      if allowed > 0 { active := true; }
    }
    return Some(made), active;
  }

  // ------------------------------------------------------------------- the scan

  /** The block holds the chunk byte that the range shows at output position `x`. */
  predicate InBlock(r: RangeCopy, length: nat, position: nat, size: nat, x: int)
  {
    Covers(r, length, x) && position <= Source(r, x) < position + size
  }

  /** One block, the chunk's bytes from `position` on, copied to where range `r` wants it. */
  function Overlaid(out: seq<Byte>, r: RangeCopy, length: nat, position: nat, block: seq<Byte>): (after: seq<Byte>)
    ensures |after| == |out|
    ensures forall x :: 0 <= x < |out| && InBlock(r, length, position, |block|, x) ==>
      after[x] == block[Source(r, x) - position]
    ensures forall x :: 0 <= x < |out| && !InBlock(r, length, position, |block|, x) ==> after[x] == out[x]
  {
    seq(|out|,
        x requires 0 <= x < |out| =>
                   if InBlock(r, length, position, |block|, x) then block[Source(r, x) - position] else out[x])
  }

  method CopyOverlap(r: RangeCopy, length: nat, position: nat, block: seq<Byte>, out: array<Byte>)
    requires r.outputOffset + Allowed(r, length) <= out.Length
    modifies out
    ensures out[..] == Overlaid(old(out[..]), r, length, position, block)
  {
    var next := position + |block|;
    var start := Max(position, r.chunkOffset);
    var end := Min(next, r.chunkOffset + Allowed(r, length));
    if start < end {
      var at := r.outputOffset + (start - r.chunkOffset);
      var from := start - position;
      ghost var was := out[..];
      for k := 0 to end - start
        invariant forall x :: 0 <= x < out.Length && !(at <= x < at + k) ==> out[x] == was[x]
        invariant forall x :: at <= x < at + k ==> out[x] == block[from + (x - at)]
      {
        out[at + k] := block[from + k];
      }
    }
  }

  lemma ScatterNext(out: seq<Byte>, ranges: seq<RangeCopy>, length: nat, fed: seq<Byte>, position: nat,
                    block: seq<Byte>, j: nat)
    requires j < |ranges| && |fed| == position + |block| && fed[position..] == block
    requires Scattered(out, ranges, length, fed, position, |fed|, j)
    ensures Scattered(Overlaid(out, ranges[j], length, position, block), ranges, length, fed, position, |fed|, j + 1)
  {
    var after := Overlaid(out, ranges[j], length, position, block);
    var k := j + 1;
    forall i, x | 0 <= i < |ranges| ensures ShowsIn(after, ranges, length, fed, position, |fed|, k, i, x) {
      assert ShowsIn(out, ranges, length, fed, position, |fed|, j, i, x);
      if i == j && 0 <= x < |out| && position <= Source(ranges[j], x) < |fed| {
        assert block[Source(ranges[j], x) - position] == fed[position..][Source(ranges[j], x) - position];
      }
    }
  }

  lemma OverlaidUntouched(out: seq<Byte>, was: seq<Byte>, ranges: seq<RangeCopy>, length: nat, position: nat,
                          block: seq<Byte>, j: nat)
    requires j < |ranges| && Untouched(out, was, ranges, length)
    ensures Untouched(Overlaid(out, ranges[j], length, position, block), was, ranges, length)
  {
  }

  /** One block scattered to every range. */
  method Scatter(ranges: seq<RangeCopy>, length: nat, position: nat, block: seq<Byte>, out: array<Byte>,
                 ghost fed: seq<Byte>, ghost was: seq<Byte>)
    requires Fits(ranges, length, out.Length) && |fed| == position + |block| && fed[position..] == block
    requires Scattered(out[..], ranges, length, fed, position, |fed|, 0) && Untouched(out[..], was, ranges, length)
    modifies out
    ensures Scattered(out[..], ranges, length, fed, position, |fed|, |ranges|)
    ensures Untouched(out[..], was, ranges, length)
  {
    for j := 0 to |ranges|
      invariant Scattered(out[..], ranges, length, fed, position, |fed|, j) && Untouched(out[..], was, ranges, length)
    {
      ScatterNext(out[..], ranges, length, fed, position, block, j);
      OverlaidUntouched(out[..], was, ranges, length, position, block, j);
      CopyOverlap(ranges[j], length, position, block, out);
    }
  }

  lemma MoreFed(out: seq<Byte>, ranges: seq<RangeCopy>, length: nat, fed: seq<Byte>, block: seq<Byte>, position: nat,
                j: nat)
    requires |fed| == position && Scattered(out, ranges, length, fed, position, position, j)
    ensures Scattered(out, ranges, length, fed + block, position, position + |block|, 0)
  {
    var more := fed + block;
    var next := |more|;
    forall i, x | 0 <= i < |ranges| ensures ShowsIn(out, ranges, length, more, position, next, 0, i, x) {
      assert ShowsIn(out, ranges, length, fed, position, position, j, i, x);
    }
  }

  lemma AllScattered(out: seq<Byte>, ranges: seq<RangeCopy>, length: nat, fed: seq<Byte>, position: nat)
    requires Scattered(out, ranges, length, fed, position, |fed|, |ranges|)
    ensures Scattered(out, ranges, length, fed, |fed|, |fed|, |ranges|)
  {
    forall i, x | 0 <= i < |ranges| ensures ShowsIn(out, ranges, length, fed, |fed|, |fed|, |ranges|, i, x) {
      assert ShowsIn(out, ranges, length, fed, position, |fed|, |ranges|, i, x);
    }
  }

  /** Every output byte of a range that no other range wants is the hashed byte at its chunk position. */
  ghost predicate Delivered(out: seq<Byte>, ranges: seq<RangeCopy>, length: nat, bytes: seq<Byte>)
  {
    forall i, x :: 0 <= i < |ranges| && Covers(ranges[i], length, x) && Alone(ranges, length, i, x)
      ==> 0 <= x < |out| && 0 <= Source(ranges[i], x) < |bytes| && out[x] == bytes[Source(ranges[i], x)]
  }

  lemma ScatteredIsDelivered(out: seq<Byte>, ranges: seq<RangeCopy>, length: nat, bytes: seq<Byte>)
    requires Fits(ranges, length, |out|) && |bytes| == length
    requires Scattered(out, ranges, length, bytes, length, length, |ranges|)
    ensures Delivered(out, ranges, length, bytes)
  {
    forall i, x | 0 <= i < |ranges| && Covers(ranges[i], length, x) && Alone(ranges, length, i, x)
      ensures 0 <= x < |out| && 0 <= Source(ranges[i], x) < |bytes| && out[x] == bytes[Source(ranges[i], x)]
    {
      assert ShowsIn(out, ranges, length, bytes, length, length, |ranges|, i, x);
    }
  }

  /** The scan loop: hashes the file block by block and scatters each block. */
  method Scan(file: FileView, ranges: seq<RangeCopy>, length: nat, out: array<Byte>) returns (fed: Outcome<seq<Byte>>)
    requires Fits(ranges, length, out.Length)
    modifies out
    ensures fed == Scanned(file, length, 0, 0) && Untouched(out[..], old(out[..]), ranges, length)
    ensures fed.Good? ==> Delivered(out[..], ranges, length, fed.value)
  {
    var position: nat := 0;
    var step: nat := 0;
    var hashed: seq<Byte> := [];
    PrefixedNone(Scanned(file, length, 0, 0));
    while position < length
      invariant position == |hashed| <= length && Untouched(out[..], old(out[..]), ranges, length)
      invariant Scattered(out[..], ranges, length, hashed, position, position, |ranges|)
      invariant Scanned(file, length, 0, 0) == Prefixed(hashed, Scanned(file, length, step, position))
    {
      var r := file.ReadAt(step, position, Limit(length, position));
      if r.None? { return Bad(IoFailure); }
      if r.value == [] { return Bad(DataLoss); }
      PrefixedTwice(hashed, r.value, Scanned(file, length, step + 1, position + |r.value|));
      MoreFed(out[..], ranges, length, hashed, r.value, position, |ranges|);
      hashed := hashed + r.value;
      Scatter(ranges, length, position, r.value, out, hashed, old(out[..]));
      AllScattered(out[..], ranges, length, hashed, position);
      position := position + |r.value|;
      step := step + 1;
    }
    ScatteredIsDelivered(out[..], ranges, length, hashed);
    assert hashed + [] == hashed;
    return Good(hashed);
  }

  function Prefixed(bytes: seq<Byte>, rest: Outcome<seq<Byte>>): Outcome<seq<Byte>>
  {
    match rest
    case Good(more) => Good(bytes + more)
    case Bad(e) => Bad(e)
  }

  lemma PrefixedNone(rest: Outcome<seq<Byte>>)
    ensures Prefixed([], rest) == rest
  {
    if rest.Good? { assert [] + rest.value == rest.value; }
  }

  lemma PrefixedTwice(a: seq<Byte>, b: seq<Byte>, rest: Outcome<seq<Byte>>)
    ensures Prefixed(a, Prefixed(b, rest)) == Prefixed(a + b, rest)
  {
    if rest.Good? { assert a + (b + rest.value) == (a + b) + rest.value; }
  }

  /** What the call answers, apart from the bytes: the clamped counts, or the error. */
  ghost predicate Answers(r: Outcome<seq<nat>>, file: FileView, chunk: ChunkObject, ranges: seq<RangeCopy>, size: nat,
                          scan: bool, hash: Hash)
  {
    if !Fits(ranges, chunk.length, size) then r == Bad(OutOfRange)
    else if scan && Verdict(file, chunk, hash).Bad? then r == Bad(Verdict(file, chunk, hash).error)
    else r == Good(Counts(ranges, chunk.length))
  }

  /** `verified_ranges_into` */
  method VerifiedRangesInto(file: FileView, chunk: ChunkObject, ranges: seq<RangeCopy>, out: array<Byte>, force: bool,
                            hash: Hash)
    returns (r: Outcome<seq<nat>>)
    modifies out
    ensures Answers(r, file, chunk, ranges, out.Length, force || AnyActive(ranges, chunk.length), hash)
    ensures Untouched(out[..], old(out[..]), ranges, chunk.length)
    ensures r.Good? && Verdict(file, chunk, hash).Good? ==>
      Delivered(out[..], ranges, chunk.length, Verdict(file, chunk, hash).value)
    ensures r.Good? && Verdict(file, chunk, hash).Bad? ==> !AnyActive(ranges, chunk.length)
  {
    var counts, active := Clamp(ranges, chunk.length, out.Length);
    if counts.None? { return Bad(OutOfRange); }
    if !active && !force { return Good(counts.value); }
    if file.before.None? { return Bad(IoFailure); }
    if file.before.value != chunk.length { return Bad(DataLoss); }
    var scanned := Scan(file, ranges, chunk.length, out);
    if scanned.Bad? { return Bad(scanned.error); }
    if file.after.None? { return Bad(IoFailure); }
    if file.after.value != chunk.length { return Bad(DataLoss); }
    if hash(scanned.value) != chunk.digest { return Bad(DataLoss); }
    return Good(counts.value);
  }

  /** `verified_range`: exactly the hashed bytes of one range, or an error. */
  method VerifiedRange(file: FileView, chunk: ChunkObject, offset: U64, length: nat, hash: Hash)
    returns (r: Outcome<seq<Byte>>)
    ensures offset + length > chunk.length ==> r == Bad(OutOfRange)
    ensures offset + length <= chunk.length && Verdict(file, chunk, hash).Bad? ==>
      r == Bad(Verdict(file, chunk, hash).error)
    ensures offset + length <= chunk.length && Verdict(file, chunk, hash).Good? ==>
      && |Verdict(file, chunk, hash).value| == chunk.length
      && r == Good(Verdict(file, chunk, hash).value[offset..offset + length])
  {
    if offset + length > chunk.length { return Bad(OutOfRange); }
    var bytes := new Byte[length];
    var range := RangeCopy(offset, length, 0);
    var counts := VerifiedRangesInto(file, chunk, [range], bytes, true, hash);
    if counts.Bad? { return Bad(counts.error); }
    ghost var all := Verdict(file, chunk, hash).value;
    PassedIsGenuine(file, chunk, hash);
    forall x | 0 <= x < length ensures bytes[x] == all[offset + x] {
      assert Covers([range][0], chunk.length, x) && Alone([range], chunk.length, 0, x);
    }
    assert bytes[..] == all[offset..offset + length];
    return Good(bytes[..]);
  }

  /** `PinnedChunkReader::read_at`: the caller's buffer changes only on success. */
  method ReadAt(file: FileView, chunk: ChunkObject, offset: U64, out: array<Byte>, hash: Hash) returns (r: Outcome<nat>)
    modifies out
    ensures r.Bad? ==> out[..] == old(out[..]) && Verdict(file, chunk, hash) == Bad(r.error)
    ensures r.Good? <==> offset >= chunk.length || out.Length == 0 || Verdict(file, chunk, hash).Good?
    ensures r.Good? ==> r.value == Min(if offset >= chunk.length then 0 else chunk.length - offset, out.Length)
    ensures r.Good? && r.value > 0 ==>
      && |Verdict(file, chunk, hash).value| == chunk.length
      && out[..r.value] == Verdict(file, chunk, hash).value[offset..offset + r.value]
    ensures r.Good? ==> out[r.value..] == old(out[r.value..])
  {
    if offset >= chunk.length || out.Length == 0 { return Good(0); }
    var allowed := Min(chunk.length - offset, out.Length);
    var bytes := VerifiedRange(file, chunk, offset, allowed, hash);
    if bytes.Bad? { return Bad(bytes.error); }
    for k := 0 to allowed
      invariant forall x :: 0 <= x < k ==> out[x] == bytes.value[x]
      invariant forall x :: k <= x < out.Length ==> out[x] == old(out[x])
    {
      out[k] := bytes.value[k];
    }
    return Good(allowed);
  }
}
