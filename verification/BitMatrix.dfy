/**
 * Bytes read and written bit by bit, least significant bit first, and square bit
 * matrices packed row by row into bytes.
 */
module BitMatrix {

  predicate BitOf(b: bv8, k: nat)
    requires k < 8
  {
    (b >> k) & 1 == 1
  }

  function WithBit(b: bv8, k: nat): bv8
    requires k < 8
  {
    b | ((1 as bv8) << k)
  }

  lemma WithBitSetsOne(b: bv8, k: nat)
    requires k < 8
    ensures forall j: nat | j < 8 :: BitOf(WithBit(b, k), j) <==> j == k || BitOf(b, j)
  {
  }

  lemma BitsDetermineByte(a: bv8, b: bv8)
    requires forall k: nat :: k < 8 ==> BitOf(a, k) == BitOf(b, k)
    ensures a == b
  {
    assert BitOf(a, 0) == BitOf(b, 0) && BitOf(a, 1) == BitOf(b, 1);
    assert BitOf(a, 2) == BitOf(b, 2) && BitOf(a, 3) == BitOf(b, 3);
    assert BitOf(a, 4) == BitOf(b, 4) && BitOf(a, 5) == BitOf(b, 5);
    assert BitOf(a, 6) == BitOf(b, 6) && BitOf(a, 7) == BitOf(b, 7);
  }

  /** Bit k of a byte string; positions past its end read as clear. */
  predicate BitAt(bytes: seq<bv8>, k: nat) {
    k / 8 < |bytes| && BitOf(bytes[k / 8], k % 8)
  }

  lemma BitsDetermineBytes(a: seq<bv8>, b: seq<bv8>)
    requires |a| == |b|
    requires forall k: nat :: BitAt(a, k) == BitAt(b, k)
    ensures a == b
  {
    forall i | 0 <= i < |a| ensures a[i] == b[i] {
      forall j: nat | j < 8 ensures BitOf(a[i], j) == BitOf(b[i], j) {
        assert BitAt(a, 8 * i + j) == BitAt(b, 8 * i + j);
        assert (8 * i + j) / 8 == i && (8 * i + j) % 8 == j;
      }
      BitsDetermineByte(a[i], b[i]);
    }
  }

  predicate Marked(bits: seq<bool>, k: nat) {
    k < |bits| && bits[k]
  }

  function PackByte(bits: seq<bool>, from: nat): bv8 {
    (if Marked(bits, from) then 0x01 else 0) | (if Marked(bits, from + 1) then 0x02 else 0) |
    (if Marked(bits, from + 2) then 0x04 else 0) | (if Marked(bits, from + 3) then 0x08 else 0) |
    (if Marked(bits, from + 4) then 0x10 else 0) | (if Marked(bits, from + 5) then 0x20 else 0) |
    (if Marked(bits, from + 6) then 0x40 else 0) | (if Marked(bits, from + 7) then 0x80 else 0)
  }

  function PackedSize(n: nat): nat {
    (n + 7) / 8
  }

  /** A bit string packed into bytes, the last one padded with clear bits. */
  function Pack(bits: seq<bool>): seq<bv8> {
    seq(PackedSize(|bits|), i requires 0 <= i => PackByte(bits, 8 * i))
  }

  lemma PackByteBit(bits: seq<bool>, from: nat, j: nat)
    requires j < 8
    ensures BitOf(PackByte(bits, from), j) <==> Marked(bits, from + j)
  {
  }

  /** Packing loses nothing and adds nothing: bit k is set exactly when it was marked. */
  lemma PackedBit(bits: seq<bool>, k: nat)
    ensures BitAt(Pack(bits), k) <==> Marked(bits, k)
  {
    if k / 8 < |Pack(bits)| {
      PackByteBit(bits, 8 * (k / 8), k % 8);
    }
  }

  // ---- n by n matrices ----

  predicate CellAt(bytes: seq<bv8>, n: nat, row: nat, col: nat) {
    BitAt(bytes, row * n + col)
  }

  lemma CellIndex(n: nat, row: nat, col: nat)
    requires row < n && col < n
    ensures row * n + col < n * n
    ensures (row * n + col) / n == row && (row * n + col) % n == col
  {
    assert row * n + col < (row + 1) * n <= n * n by {
      assert row + 1 <= n;
    }
    DivModOfSum(n, row, col);
  }

  lemma MulMonotone(a: nat, b: nat, n: nat)
    ensures a <= b ==> a * n <= b * n
  {
  }

  lemma DivModOfSum(n: nat, q: nat, r: nat)
    requires r < n
    ensures (q * n + r) / n == q && (q * n + r) % n == r
  {
    var k := q * n + r;
    assert k == (k / n) * n + k % n;
    MulMonotone(k / n + 1, q, n);
    MulMonotone(q + 1, k / n, n);
  }

  /** Different cells of a matrix occupy different bits. */
  lemma CellsDiffer(n: nat, row: nat, col: nat, row': nat, col': nat)
    requires row < n && col < n && row' < n && col' < n
    ensures row * n + col == row' * n + col' <==> row == row' && col == col'
  {
    DivModOfSum(n, row, col);
    DivModOfSum(n, row', col');
  }

  lemma BitsAfterSetting(bytes: seq<bv8>, idx: nat)
    requires idx / 8 < |bytes|
    ensures forall k: nat ::
              BitAt(bytes[idx / 8 := WithBit(bytes[idx / 8], idx % 8)], k) <==> k == idx || BitAt(bytes, k)
  {
    WithBitSetsOne(bytes[idx / 8], idx % 8);
    forall k: nat
      ensures BitAt(bytes[idx / 8 := WithBit(bytes[idx / 8], idx % 8)], k) <==> k == idx || BitAt(bytes, k)
    {
      assert k == 8 * (k / 8) + k % 8 && idx == 8 * (idx / 8) + idx % 8;
    }
  }

  lemma CellsAfterSetting(before: seq<bv8>, after: seq<bv8>, n: nat, row: nat, col: nat)
    requires row < n && col < n
    requires forall k: nat :: BitAt(after, k) <==> k == row * n + col || BitAt(before, k)
    ensures forall r: nat, c: nat | r < n && c < n ::
              CellAt(after, n, r, c) <==> (r == row && c == col) || CellAt(before, n, r, c)
  {
    forall r: nat, c: nat | r < n && c < n
      ensures CellAt(after, n, r, c) <==> (r == row && c == col) || CellAt(before, n, r, c)
    {
      CellsDiffer(n, row, col, r, c);
    }
  }

  /** Sets the bit of one cell, in place. */
  method SetBit(bitmap: array<bv8>, n: nat, row: nat, col: nat)
    requires row < n && col < n && bitmap.Length == PackedSize(n * n)
    modifies bitmap
    ensures forall r: nat, c: nat | r < n && c < n ::
              CellAt(bitmap[..], n, r, c) <==> (r == row && c == col) || old(CellAt(bitmap[..], n, r, c))
    ensures forall k: nat | n * n <= k :: BitAt(bitmap[..], k) == old(BitAt(bitmap[..], k))
  {
    CellIndex(n, row, col);
    var idx := row * n + col;
    ghost var before := bitmap[..];
    bitmap[idx / 8] := WithBit(bitmap[idx / 8], idx % 8);
    assert bitmap[..] == before[idx / 8 := WithBit(before[idx / 8], idx % 8)];
    BitsAfterSetting(before, idx);
    CellsAfterSetting(before, bitmap[..], n, row, col);
  }

  lemma SplitIndex(n: nat, k: nat)
    requires k < n * n
    ensures n > 0 && k / n < n && k % n < n && (k / n) * n + k % n == k
  {
    assert n != 0;
    MulMonotone(n, k / n, n);
  }
}
