/** The in-place vertical flip that turns a decoded image (row 0 at the top) into the
    bottom-up row order the graphics API expects (main.cpp:236-252). */
module ImageFlip {

  /** One `unsigned char` of the pixel buffer. */
  type byte = b: int | 0 <= b < 256

  /** C's `n / 2` on an `int`: the quotient is truncated toward zero. */
  function HalfTowardZero(n: int): (h: int)
    ensures n >= 0 ==> h + h <= n <= h + h + 1
    ensures n < 0 ==> n <= h + h <= 0
  {
    if n >= 0 then n / 2 else -((-n) / 2)
  }

  /** What the flip demands of its caller: every byte the two row cursors visit lies
      inside the buffer. Nothing is visited unless there are at least two rows of
      positive length, and then the last byte visited is at height * rowLen - 1. */
  predicate InBounds(length: int, rowLen: int, height: int) {
    rowLen <= 0 || height < 2 || height * rowLen <= length
  }

  /** The position that byte i of the flipped buffer is taken from: the byte at the
      same column of the mirror row, which starts at (height - 1) * rowLen - RowStart(i);
      bytes past the last row stay put. */
  function MirrorIndex(i: int, rowLen: int, height: int): int {
    if rowLen > 0 && 0 <= i < height * rowLen then
      ((height - 1) * rowLen - RowStart(i, rowLen)) + (i - RowStart(i, rowLen))
    else
      i
  }

  /** The first byte of the row that byte i belongs to, for rows of rowLen bytes. */
  function RowStart(i: nat, rowLen: int): nat
    requires rowLen > 0
    decreases i
  {
    if i < rowLen then 0 else rowLen + RowStart(i - rowLen, rowLen)
  }

  /** The row that byte i belongs to. */
  function RowNumber(i: nat, rowLen: int): nat
    requires rowLen > 0
    decreases i
  {
    if i < rowLen then 0 else 1 + RowNumber(i - rowLen, rowLen)
  }

  /** The buffer after the flip, as a function of the buffer before it. */
  function Flipped(s: seq<byte>, rowLen: int, height: int): (r: seq<byte>)
    requires InBounds(|s|, rowLen, height)
    ensures |r| == |s|
  {
    seq(|s|, i requires 0 <= i < |s| =>
      MirrorIndexInRange(|s|, i, rowLen, height); s[MirrorIndex(i, rowLen, height)])
  }

  // ---------------------------------------------------------------------------
  // Arithmetic helpers (multiplication by a row length is not linear)

  lemma MulLe(a: int, b: int, c: int)
    requires a <= b && 0 <= c
    ensures a * c <= b * c
  {
    assert b * c - a * c == (b - a) * c;
  }

  /** Row RowNumber(i, rowLen) starts at byte RowStart(i, rowLen). */
  lemma {:induction false} RowStartIsRowNumber(i: nat, rowLen: int)
    requires rowLen > 0
    ensures RowStart(i, rowLen) == RowNumber(i, rowLen) * rowLen
    decreases i
  {
    if i >= rowLen {
      RowStartIsRowNumber(i - rowLen, rowLen);
      var r := RowNumber(i - rowLen, rowLen);
      assert (r + 1) * rowLen == r * rowLen + rowLen;
    }
  }

  /** Byte i lies in row RowNumber(i, rowLen), at column i - RowNumber(i, rowLen) * rowLen. */
  lemma {:induction false} RowBounds(i: nat, rowLen: int)
    requires rowLen > 0
    ensures RowNumber(i, rowLen) * rowLen <= i < RowNumber(i, rowLen) * rowLen + rowLen
    decreases i
  {
    if i >= rowLen {
      RowBounds(i - rowLen, rowLen);
      var r := RowNumber(i - rowLen, rowLen);
      assert (r + 1) * rowLen == r * rowLen + rowLen;
    }
  }

  /** Byte k of row r lies in row r. */
  lemma {:induction false} RowNumberOf(r: nat, k: int, rowLen: int)
    requires rowLen > 0 && 0 <= k < rowLen
    ensures r * rowLen + k >= 0
    ensures RowNumber(r * rowLen + k, rowLen) == r
  {
    MulLe(0, r, rowLen);
    if r > 0 {
      RowNumberOf(r - 1, k, rowLen);
      assert r * rowLen + k - rowLen == (r - 1) * rowLen + k;
    }
  }

  /** A position inside the first height rows lies in one of those rows. */
  lemma RowBelow(i: nat, rowLen: int, height: int)
    requires rowLen > 0 && i < height * rowLen
    ensures RowNumber(i, rowLen) < height
  {
    RowBounds(i, rowLen);
    if RowNumber(i, rowLen) >= height {
      MulLe(height, RowNumber(i, rowLen), rowLen);
    }
  }

  // ---------------------------------------------------------------------------
  // The row mirror

  /** Byte k of row r is taken from byte k of row height - 1 - r. */
  lemma MirrorOfRow(r: int, k: int, rowLen: int, height: int)
    requires rowLen > 0 && 0 <= r < height && 0 <= k < rowLen
    ensures 0 <= r * rowLen + k < height * rowLen
    ensures MirrorIndex(r * rowLen + k, rowLen, height) == (height - 1 - r) * rowLen + k
  {
    MulLe(0, r, rowLen);
    MulLe(r + 1, height, rowLen);
    RowNumberOf(r, k, rowLen);
    RowStartIsRowNumber(r * rowLen + k, rowLen);
    assert (height - 1) * rowLen - r * rowLen == (height - 1 - r) * rowLen;
  }

  /** Under the caller's bound, every byte of the flipped buffer is taken from inside
      the buffer. */
  lemma MirrorIndexInRange(n: int, i: int, rowLen: int, height: int)
    requires InBounds(n, rowLen, height) && 0 <= i < n
    ensures 0 <= MirrorIndex(i, rowLen, height) < n
  {
    if rowLen > 0 && i < height * rowLen {
      RowBounds(i, rowLen);
      RowBelow(i, rowLen, height);
      var r := RowNumber(i, rowLen);
      var k := i - r * rowLen;
      MirrorOfRow(r, k, rowLen, height);
      MirrorOfRow(height - 1 - r, k, rowLen, height);
      if height < 2 {
        assert r == 0 && MirrorIndex(i, rowLen, height) == k;
      }
    }
  }

  /** The mirror is its own inverse. */
  lemma MirrorInvolutive(i: int, rowLen: int, height: int)
    requires 0 <= i
    ensures MirrorIndex(MirrorIndex(i, rowLen, height), rowLen, height) == i
  {
    if rowLen > 0 && i < height * rowLen {
      RowBounds(i, rowLen);
      RowBelow(i, rowLen, height);
      var r := RowNumber(i, rowLen);
      var k := i - r * rowLen;
      MirrorOfRow(r, k, rowLen, height);
      MirrorOfRow(height - 1 - r, k, rowLen, height);
    }
  }

  // ---------------------------------------------------------------------------
  // Properties of the flip

  /** After the flip, byte k of row r holds what byte k of row height - 1 - r held
      before; in particular the middle row of an odd-height image keeps its bytes. */
  lemma FlippedAt(s: seq<byte>, rowLen: int, height: int, r: int, k: int)
    requires height * rowLen <= |s| && 0 <= r < height && 0 <= k < rowLen
    ensures InBounds(|s|, rowLen, height)
    ensures 0 <= r * rowLen + k < |s| && 0 <= (height - 1 - r) * rowLen + k < |s|
    ensures Flipped(s, rowLen, height)[r * rowLen + k] == s[(height - 1 - r) * rowLen + k]
    ensures r + r + 1 == height ==> Flipped(s, rowLen, height)[r * rowLen + k] == s[r * rowLen + k]
  {
    MirrorOfRow(r, k, rowLen, height);
    MirrorOfRow(height - 1 - r, k, rowLen, height);
  }

  /** Bytes past the last full row, and every byte when a row is empty, are left as
      they were. */
  lemma FlippedTail(s: seq<byte>, rowLen: int, height: int, i: int)
    requires InBounds(|s|, rowLen, height) && 0 <= i < |s|
    requires rowLen <= 0 || height * rowLen <= i
    ensures Flipped(s, rowLen, height)[i] == s[i]
  {
  }

  /** Flipping twice restores the original buffer exactly. */
  lemma {:induction false} FlipInvolution(s: seq<byte>, rowLen: int, height: int)
    requires InBounds(|s|, rowLen, height)
    ensures Flipped(Flipped(s, rowLen, height), rowLen, height) == s
  {
    var once := Flipped(s, rowLen, height);
    var twice := Flipped(once, rowLen, height);
    forall i | 0 <= i < |s|
      ensures twice[i] == s[i]
    {
      MirrorIndexInRange(|s|, i, rowLen, height);
      MirrorInvolutive(i, rowLen, height);
    }
  }

  /** The flip takes every byte from a distinct position: it is a permutation of the
      buffer's positions, so no byte is lost or duplicated. */
  lemma FlipIsBijective(s: seq<byte>, rowLen: int, height: int, i: int, j: int)
    requires InBounds(|s|, rowLen, height) && 0 <= i < |s| && 0 <= j < |s|
    ensures MirrorIndex(i, rowLen, height) == MirrorIndex(j, rowLen, height) <==> i == j
  {
    MirrorInvolutive(i, rowLen, height);
    MirrorInvolutive(j, rowLen, height);
  }

  /** The flip keeps every byte value as often as it occurs: the flipped buffer is a
      permutation of the original. */
  lemma FlipPermutes(s: seq<byte>, rowLen: int, height: int)
    requires InBounds(|s|, rowLen, height)
    ensures multiset(Flipped(s, rowLen, height)) == multiset(s)
  {
    var r := Flipped(s, rowLen, height);
    var mirror := i => MirrorIndex(i, rowLen, height);
    forall i | 0 <= i < |r| ensures 0 <= mirror(i) < |s| && r[i] == s[mirror(i)] {
      MirrorIndexInRange(|s|, i, rowLen, height);
    }
    forall i, j | 0 <= i < j < |r| ensures mirror(i) != mirror(j) {
      FlipIsBijective(s, rowLen, height, i, j);
    }
    PermutedMultiset(r, s, mirror);
  }

  /** A sequence whose bytes are taken from distinct positions of another of the same
      length has the same bytes, as often. */
  lemma {:induction false} PermutedMultiset(r: seq<byte>, s: seq<byte>, p: int -> int)
    requires |r| == |s|
    requires forall i :: 0 <= i < |r| ==> 0 <= p(i) < |s| && r[i] == s[p(i)]
    requires forall i, j :: 0 <= i < j < |r| ==> p(i) != p(j)
    ensures multiset(r) == multiset(s)
    decreases |r|
  {
    if |r| > 0 {
      var n := |r| - 1;
      var k := p(n);
      var rest := s[..k] + s[k + 1..];
      var q := i => if p(i) < k then p(i) else p(i) - 1;
      forall i | 0 <= i < n ensures 0 <= q(i) < |rest| && r[..n][i] == rest[q(i)] {
        assert p(i) != p(n);
      }
      forall i, j | 0 <= i < j < n ensures q(i) != q(j) {
        assert p(i) != p(n) && p(j) != p(n);
      }
      PermutedMultiset(r[..n], rest, q);
      assert r == r[..n] + [r[n]];
      assert s == s[..k] + [s[k]] + s[k + 1..];
    }
  }

  // ---------------------------------------------------------------------------
  // The in-place algorithm

  /** Bytes already swapped once the first j row pairs are done. */
  ghost predicate Done(p: int, lo: int, hi: int, end: int) {
    p < lo || hi <= p < end
  }

  /** Rows j and height - 1 - j, for j < height / 2, are distinct rows inside the
      buffer. */
  lemma RowPairBounds(n: int, rowLen: int, height: int, j: int)
    requires InBounds(n, rowLen, height) && rowLen > 0 && 0 <= j && j + j + 2 <= height
    ensures 0 <= j * rowLen && j * rowLen + rowLen <= (height - 1 - j) * rowLen
    ensures (height - 1 - j) * rowLen + rowLen == (height - j) * rowLen <= height * rowLen <= n
  {
    MulLe(j + 1, height - 1 - j, rowLen);
    MulLe(height - j, height, rowLen);
    MulLe(0, j, rowLen);
    assert (j + 1) * rowLen == j * rowLen + rowLen;
    assert (height - j) * rowLen == (height - 1 - j) * rowLen + rowLen;
  }

  /** Byte p of row r, which starts at byte lo, is taken from the same column of row
      height - 1 - r, which starts at byte hi. */
  lemma RowMirrored(s: seq<byte>, rowLen: int, height: int, r: int, lo: int, hi: int, p: int)
    requires rowLen > 0 && height * rowLen <= |s| && 0 <= r < height
    requires lo == r * rowLen && hi == (height - 1 - r) * rowLen && lo <= p < lo + rowLen
    ensures 0 <= p < |s| && 0 <= p - lo + hi < |s| && Flipped(s, rowLen, height)[p] == s[p - lo + hi]
  {
    FlippedAt(s, rowLen, height, r, p - lo);
  }

  /** Once the first height / 2 row pairs are swapped the buffer is the flipped one:
      what is left unswapped is the middle row of an odd-height image and the bytes
      past the last row, which the flip leaves in place. */
  lemma FlipFinished(orig: seq<byte>, cur: seq<byte>, rowLen: int, height: int, j: int, doneLo: int, doneHi: int)
    requires InBounds(|orig|, rowLen, height) && |cur| == |orig|
    requires 0 <= j && (height >= 2 ==> j == height / 2)
    requires doneLo == j * rowLen && doneHi == (height - j) * rowLen
    requires forall p :: 0 <= p < |cur| ==>
      cur[p] == if rowLen > 0 && height >= 2 && Done(p, doneLo, doneHi, height * rowLen)
                then Flipped(orig, rowLen, height)[p] else orig[p]
    ensures cur == Flipped(orig, rowLen, height)
  {
    var flipped := Flipped(orig, rowLen, height);
    forall p | 0 <= p < |cur|
      ensures cur[p] == flipped[p]
    {
      if rowLen > 0 && p < height * rowLen {
        if height >= 2 && !Done(p, j * rowLen, (height - j) * rowLen, height * rowLen) {
          // the middle row of an odd-height image: height - j == j + 1
          var k := p - j * rowLen;
          MulLe(height - j, j + 1, rowLen);
          assert (j + 1) * rowLen == j * rowLen + rowLen;
          MirrorOfRow(j, k, rowLen, height);
          assert height - 1 - j == j;
        } else if height < 2 {
          // a single row
          if height <= 0 {
            MulLe(height, 0, rowLen);
            assert false;
          }
          MirrorOfRow(0, p, rowLen, height);
        }
      }
    }
  }

  /** The inner loop of flipImageVertically: count bytes from index1 on are exchanged
      with count bytes from index2 on, one byte at a time through tmp. */
  method SwapRowBytes(image: array<byte>, index1: int, index2: int, count: int)
    requires count > 0 ==> 0 <= index1 && index1 + count <= index2 && index2 + count <= image.Length
    modifies image
    ensures forall p :: 0 <= p < image.Length ==>
      image[p] == if count > 0 && index1 <= p < index1 + count then old(image[p - index1 + index2])
                  else if count > 0 && index2 <= p < index2 + count then old(image[p - index2 + index1])
                  else old(image[p])
  {
    ghost var lo, hi := index1, index2;
    var index1, index2 := index1, index2;
    var i := count;
    while i > 0
      invariant count > 0 ==> 0 <= i <= count
      invariant count <= 0 ==> i == count
      invariant index1 == lo + (count - i) && index2 == hi + (count - i)
      invariant forall p :: 0 <= p < image.Length ==>
        image[p] == if lo <= p < index1 then old(image[p - lo + hi])
                    else if hi <= p < index2 then old(image[p - hi + lo])
                    else old(image[p])
    {
      var tmp := image[index1];
      image[index1] := image[index2];
      image[index2] := tmp;
      index1 := index1 + 1;
      index2 := index2 + 1;
      i := i - 1;
    }
  }

  /** flipImageVertically: for each of the first height / 2 rows, swap it byte by byte
      with its mirror row through the two running cursors index1 and index2. */
  method FlipImageVertically(image: array<byte>, width: int, height: int, channels: int)
    requires InBounds(image.Length, width * channels, height)
    modifies image
    ensures image[..] == Flipped(old(image[..]), width * channels, height)
  {
    ghost var orig := image[..];
    ghost var rowLen := width * channels;
    ghost var flipped := Flipped(orig, rowLen, height);
    ghost var active := rowLen > 0 && height >= 2;
    ghost var end := height * rowLen;
    // rows [0, j) and [height - j, height) are done: bytes [0, doneLo) and [doneHi, end)
    ghost var doneLo, doneHi := 0, end;
    var j := 0;
    while j < HalfTowardZero(height)
      invariant 0 <= j && (height >= 2 ==> j + j <= height)
      invariant doneLo == j * rowLen && doneHi == (height - j) * rowLen
      invariant forall p :: 0 <= p < image.Length ==>
        image[p] == if active && Done(p, doneLo, doneHi, end) then flipped[p] else orig[p]
    {
      var index1 := j * (width * channels);
      var index2 := (height - 1 - j) * (width * channels);
      ghost var lo, hi := index1, index2;
      assert lo == doneLo && hi + rowLen == doneHi;
      if rowLen > 0 {
        RowPairBounds(|orig|, rowLen, height, j);
        forall p | lo <= p < lo + rowLen
          ensures flipped[p] == orig[p - lo + hi]
        {
          RowMirrored(orig, rowLen, height, j, lo, hi, p);
        }
        forall p | hi <= p < hi + rowLen
          ensures flipped[p] == orig[p - hi + lo]
        {
          RowMirrored(orig, rowLen, height, height - 1 - j, hi, lo, p);
        }
      }
      SwapRowBytes(image, index1, index2, width * channels);
      j := j + 1;
      doneLo, doneHi := lo + rowLen, hi;
    }
    FlipFinished(orig, image[..], rowLen, height, j, doneLo, doneHi);
  }
}
