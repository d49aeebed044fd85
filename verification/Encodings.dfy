/**
 The texts behind the identities that the rest of the model keeps structured:
 chunk, copy and repair-task ids (src/node/chunk.rs, src/meta/dfs.rs), and the
 bytes hashed into a new inode id.  Each text determines what it was made from.
 */
module Encodings {
  import opened Records

  // ------------------------------------------------------------------ splitting

  function FirstAt<T(==)>(s: seq<T>, sep: T): nat { if s == [] || s[0] == sep then 0 else 1 + FirstAt(s[1..], sep) }

  function AfterLast<T(==)>(s: seq<T>, sep: T): nat
  {
    if s == [] || s[|s| - 1] == sep then 0 else 1 + AfterLast(s[..|s| - 1], sep)
  }

  lemma {:induction false} FirstAtIs<T>(a: seq<T>, b: seq<T>, sep: T)
    requires sep !in a
    ensures FirstAt(a + [sep] + b, sep) == |a|
  {
    var s := a + [sep] + b;
    if a != [] {
      assert s[1..] == a[1..] + [sep] + b;
      FirstAtIs(a[1..], b, sep);
    }
  }

  lemma {:induction false} AfterLastIs<T>(a: seq<T>, b: seq<T>, sep: T)
    requires sep !in b
    ensures AfterLast(a + [sep] + b, sep) == |b|
  {
    var s := a + [sep] + b;
    if b != [] {
      assert s[..|s| - 1] == a + [sep] + b[..|b| - 1];
      AfterLastIs(a, b[..|b| - 1], sep);
    }
  }

  lemma SameLength<T>(a: seq<T>, b: seq<T>, c: seq<T>, d: seq<T>, sep: T)
    requires a + [sep] + b == c + [sep] + d && |a| == |c|
    ensures a == c && b == d
  {
    var s := a + [sep] + b;
    var t := c + [sep] + d;
    assert a == s[..|a|] && c == t[..|a|] && b == s[|a| + 1..] && d == t[|a| + 1..];
  }

  /** A text is split in one way at a separator that the first parts do not contain. */
  lemma SplitAtFirst<T>(a: seq<T>, b: seq<T>, c: seq<T>, d: seq<T>, sep: T)
    requires a + [sep] + b == c + [sep] + d && sep !in a && sep !in c
    ensures a == c && b == d
  {
    FirstAtIs(a, b, sep);
    FirstAtIs(c, d, sep);
    SameLength(a, b, c, d, sep);
  }

  /** And at a separator that the last parts do not contain. */
  lemma SplitAtLast<T>(a: seq<T>, b: seq<T>, c: seq<T>, d: seq<T>, sep: T)
    requires a + [sep] + b == c + [sep] + d && sep !in b && sep !in d
    ensures a == c && b == d
  {
    AfterLastIs(a, b, sep);
    AfterLastIs(c, d, sep);
    SameLength(a, b, c, d, sep);
  }

  // -------------------------------------------------------------------- numerals

  const DIGITS := "0123456789abcdef"

  predicate IsNumeral(s: string) { forall i :: 0 <= i < |s| ==> s[i] in DIGITS }

  function Digit(d: nat): char
    requires d < 16
  {
    DIGITS[d]
  }

  lemma DigitInjective(d: nat, e: nat)
    requires d < 16 && e < 16 && Digit(d) == Digit(e)
    ensures d == e
  {
  }

  function Decimal(n: nat): string { (if n < 10 then [] else Decimal(n / 10)) + [Digit(n % 10)] }

  lemma {:induction false} DecimalIsNumeral(n: nat)
    ensures IsNumeral(Decimal(n)) && Decimal(n) != []
  {
    if n >= 10 { DecimalIsNumeral(n / 10); }
  }

  lemma {:induction false} DecimalInjective(n: nat, m: nat)
    requires Decimal(n) == Decimal(m)
    ensures n == m
    decreases n + m
  {
    var a := if n < 10 then [] else Decimal(n / 10);
    var b := if m < 10 then [] else Decimal(m / 10);
    assert Decimal(n)[|a|] == Digit(n % 10) && Decimal(m)[|b|] == Digit(m % 10);
    assert a == Decimal(n)[..|a|] && b == Decimal(m)[..|b|];
    DigitInjective(n % 10, m % 10);
    if n >= 10 { DecimalIsNumeral(n / 10); }
    if m >= 10 { DecimalIsNumeral(m / 10); }
    if n >= 10 && m >= 10 { DecimalInjective(n / 10, m / 10); }
  }

  function Hex(bytes: seq<Byte>): string
  {
    if bytes == [] then [] else [Digit(bytes[0] / 16), Digit(bytes[0] % 16)] + Hex(bytes[1..])
  }

  lemma {:induction false} HexIsNumeral(bytes: seq<Byte>)
    ensures IsNumeral(Hex(bytes)) && |Hex(bytes)| == 2 * |bytes|
  {
    if bytes != [] { HexIsNumeral(bytes[1..]); }
  }

  lemma {:induction false} HexInjective(a: seq<Byte>, b: seq<Byte>)
    requires Hex(a) == Hex(b)
    ensures a == b
  {
    HexIsNumeral(a);
    HexIsNumeral(b);
    if a != [] {
      var s, t := Hex(a), Hex(b);
      assert s[0] == Digit(a[0] / 16) && s[1] == Digit(a[0] % 16) && s[2..] == Hex(a[1..]);
      assert t[0] == Digit(b[0] / 16) && t[1] == Digit(b[0] % 16) && t[2..] == Hex(b[1..]);
      DigitInjective(a[0] / 16, b[0] / 16);
      DigitInjective(a[0] % 16, b[0] % 16);
      HexInjective(a[1..], b[1..]);
      assert a == [a[0]] + a[1..] && b == [b[0]] + b[1..];
    }
  }

  // ------------------------------------------------------------------------- ids

  function ChunkText(c: ChunkId): string { "blake3-" + (Hex(c.digest) + ['-'] + Decimal(c.length)) }

  lemma ChunkTextHasNoColon(c: ChunkId)
    ensures ':' !in ChunkText(c)
  {
    HexIsNumeral(c.digest);
    DecimalIsNumeral(c.length);
  }

  lemma ChunkTextInjective(c: ChunkId, d: ChunkId)
    requires ChunkText(c) == ChunkText(d)
    ensures c == d
  {
    HexIsNumeral(c.digest);
    HexIsNumeral(d.digest);
    assert ChunkText(c)[7..] == Hex(c.digest) + ['-'] + Decimal(c.length);
    assert ChunkText(d)[7..] == Hex(d.digest) + ['-'] + Decimal(d.length);
    SplitAtFirst(Hex(c.digest), Decimal(c.length), Hex(d.digest), Decimal(d.length), '-');
    HexInjective(c.digest, d.digest);
    DecimalInjective(c.length, d.length);
  }

  function TaskText(c: ChunkId): string { "repair:" + ChunkText(c) }

  lemma TaskTextInjective(c: ChunkId, d: ChunkId)
    requires TaskText(c) == TaskText(d)
    ensures c == d
  {
    assert TaskText(c)[7..] == ChunkText(c) && TaskText(d)[7..] == ChunkText(d);
    ChunkTextInjective(c, d);
  }

  function CopyText(x: CopyId): string
  {
    x.node + [':'] + (Decimal(x.epoch) + [':'] + (x.device + [':'] + ChunkText(x.chunk)))
  }

  /** A copy id's text determines node, epoch, device and chunk, even if the device name holds colons. */
  lemma CopyTextInjective(x: CopyId, y: CopyId)
    requires CopyText(x) == CopyText(y) && ':' !in x.node && ':' !in y.node
    ensures x == y
  {
    var xTail, yTail := x.device + [':'] + ChunkText(x.chunk), y.device + [':'] + ChunkText(y.chunk);
    SplitAtFirst(x.node, Decimal(x.epoch) + [':'] + xTail, y.node, Decimal(y.epoch) + [':'] + yTail, ':');
    DecimalIsNumeral(x.epoch);
    DecimalIsNumeral(y.epoch);
    SplitAtFirst(Decimal(x.epoch), xTail, Decimal(y.epoch), yTail, ':');
    DecimalInjective(x.epoch, y.epoch);
    ChunkTextHasNoColon(x.chunk);
    ChunkTextHasNoColon(y.chunk);
    SplitAtLast(x.device, ChunkText(x.chunk), y.device, ChunkText(y.chunk), ':');
    ChunkTextInjective(x.chunk, y.chunk);
  }

  /** With colons in node ids two different copies can share a text. */
  lemma ColonsCollide(c: ChunkId)
    ensures CopyText(CopyId("a:1", 1, "d", c)) == CopyText(CopyId("a", 1, "1:d", c))
  {
    assert Decimal(1) == "1";
    var tail := [':'] + ChunkText(c);
    assert CopyText(CopyId("a:1", 1, "d", c)) == "a:1:1:d" + tail;
    assert CopyText(CopyId("a", 1, "1:d", c)) == "a:1:1:d" + tail;
  }

  // ------------------------------------------------------------------ inode ids

  /** `n` fits in `k` bytes. */
  predicate FitsIn(n: nat, k: nat) { if k == 0 then n == 0 else FitsIn(n / 256, k - 1) }

  /** The last `k` bytes of `n`, most significant first. */
  function BigEndian(n: nat, k: nat): (bytes: seq<Byte>)
    ensures |bytes| == k
  {
    if k == 0 then [] else BigEndian(n / 256, k - 1) + [n % 256]
  }

  lemma {:induction false} BigEndianInjective(n: nat, m: nat, k: nat)
    requires FitsIn(n, k) && FitsIn(m, k) && BigEndian(n, k) == BigEndian(m, k)
    ensures n == m
  {
    if k > 0 {
      var a, b := BigEndian(n, k), BigEndian(m, k);
      assert a[k - 1] == n % 256 && b[k - 1] == m % 256;
      assert a[..k - 1] == BigEndian(n / 256, k - 1) && b[..k - 1] == BigEndian(m / 256, k - 1);
      BigEndianInjective(n / 256, m / 256, k - 1);
    }
  }

  lemma U64FitsIn(n: U64)
    ensures FitsIn(n, 8)
  {
    var a := n / 256;
    var b := a / 256;
    var c := b / 256;
    var d := c / 256;
    var e := d / 256;
    var f := e / 256;
    var g := f / 256;
    assert g / 256 == 0;
    assert FitsIn(g, 1) && FitsIn(f, 2) && FitsIn(e, 3) && FitsIn(d, 4) && FitsIn(c, 5) && FitsIn(b, 6) && FitsIn(a, 7);
  }

  /** The bytes hashed into a new inode's id: the caller's length, the caller, the operation. */
  function InodePreimage(caller: seq<Byte>, operation: seq<Byte>): seq<Byte>
  {
    BigEndian(|caller|, 8) + (caller + operation)
  }

  lemma InodePreimageInjective(caller: seq<Byte>, operation: seq<Byte>, caller': seq<Byte>, operation': seq<Byte>)
    requires |caller| <= MAX64 && |caller'| <= MAX64
    requires InodePreimage(caller, operation) == InodePreimage(caller', operation')
    ensures caller == caller' && operation == operation'
  {
    var s, t := InodePreimage(caller, operation), InodePreimage(caller', operation');
    assert s[..8] == BigEndian(|caller|, 8) && t[..8] == BigEndian(|caller'|, 8);
    U64FitsIn(|caller|);
    U64FitsIn(|caller'|);
    BigEndianInjective(|caller|, |caller'|, 8);
    assert s[8..] == caller + operation && t[8..] == caller' + operation';
    var n := |caller|;
    assert caller == s[8..][..n] && caller' == t[8..][..n] && operation == s[8..][n..] && operation' == t[8..][n..];
  }
}
