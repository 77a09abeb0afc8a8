/** The relocation of the compressed payload in loader/loader.c: a word copy from the top
    down, possibly onto itself, and where the two parts are found afterwards. */
module Loader {

  const RELOC_TOP: nat := 0x4003_8000  // IPL_RELOC_TOP

  /** ALIGN(n, 4) */
  function Align4(n: nat): nat
  {
    (n + 3) / 4 * 4
  }

  /** The least multiple of 4 that is not below n. */
  lemma Align4Is(n: nat)
    ensures Align4(n) % 4 == 0 && n <= Align4(n) < n + 4
  {
  }

  /** Memory after copying n words from word p up to word d up, the last word first. */
  function CopyDown(m: seq<nat>, p: nat, d: nat, n: nat): (r: seq<nat>)
    requires p + n <= |m| && d + n <= |m|
    ensures |r| == |m|
    decreases n
  {
    if n == 0 then m else CopyDown(m[d + n - 1 := m[p + n - 1]], p, d, n - 1)
  }

  /** The destination holds what the source held, and nothing else has changed. */
  ghost predicate Copied(m: seq<nat>, m': seq<nat>, p: nat, d: nat, n: nat)
    requires p + n <= |m| && d + n <= |m|
  {
    |m'| == |m| &&
    forall i {:trigger m'[i]} :: 0 <= i < |m| ==> m'[i] == if d <= i < d + n then m[p + (i - d)] else m[i]
  }

  /** Copying from the top down is safe onto higher addresses and onto a separate area. */
  lemma {:induction false} CopyDownSafe(m: seq<nat>, p: nat, d: nat, n: nat)
    requires p + n <= |m| && d + n <= |m|
    requires p <= d || d + n <= p
    ensures Copied(m, CopyDown(m, p, d, n), p, d, n)
    decreases n
  {
    if n > 0 {
      CopyDownSafe(m[d + n - 1 := m[p + n - 1]], p, d, n - 1);
    }
  }

  lemma {:induction false} KeepsAbove(m: seq<nat>, p: nat, d: nat, n: nat, i: nat)
    requires p + n <= |m| && d + n <= i < |m|
    ensures CopyDown(m, p, d, n)[i] == m[i]
    decreases n
  {
    if n > 0 {
      KeepsAbove(m[d + n - 1 := m[p + n - 1]], p, d, n - 1, i);
    }
  }

  /** A source word above everything that will be written arrives. */
  lemma {:induction false} ReadsAbove(m: seq<nat>, p: nat, d: nat, n: nat, i: nat)
    requires d < p && p + n <= |m| && i < n && p + i >= d + n
    ensures CopyDown(m, p, d, n)[d + i] == m[p + i]
    decreases n
  {
    var m1 := m[d + n - 1 := m[p + n - 1]];
    if i == n - 1 {
      KeepsAbove(m1, p, d, n - 1, d + i);
    } else {
      ReadsAbove(m1, p, d, n - 1, i);
    }
  }

  /** A memory that the copy onto an overlapping lower destination gets wrong: the source word
      for one place has been overwritten by the very first write. */
  lemma CopyDownSpoils(size: nat, p: nat, d: nat, n: nat) returns (m: seq<nat>)
    requires p + n <= size && d < p < d + n
    ensures |m| == size && !Copied(m, CopyDown(m, p, d, n), p, d, n)
  {
    m := seq(size, j => if j == p + n - 1 then 1 else 0);
    var m1 := m[d + n - 1 := m[p + n - 1]];
    var i := n - 1 - (p - d);
    ReadsAbove(m1, p, d, n - 1, i);
    var r := CopyDown(m, p, d, n);
    assert r == CopyDown(m1, p, d, n - 1);
    assert r[d + i] == 1 && m[p + i] == 0;
  }

  /** The copy is right for every content of memory if and only if the destination is not
      below the source, or does not reach into it. */
  lemma CopyDownExactly(size: nat, p: nat, d: nat, n: nat)
    requires p + n <= size && d + n <= size
    ensures (forall m: seq<nat> :: |m| == size ==> Copied(m, CopyDown(m, p, d, n), p, d, n)) <==> p <= d || d + n <= p
  {
    if p <= d || d + n <= p {
      forall m: seq<nat> | |m| == size
        ensures Copied(m, CopyDown(m, p, d, n), p, d, n)
      {
        CopyDownSafe(m, p, d, n);
      }
    } else {
      var m := CopyDownSpoils(size, p, d, n);
    }
  }

  // ---------------------------------------------------------------- the two parts

  /** The byte at address a of memory whose first word is at address `base`. */
  function ByteAt(m: seq<nat>, base: nat, a: nat): nat
    requires base <= a && (a - base) / 4 < |m|
  {
    var w := m[(a - base) / 4];
    match (a - base) % 4
    case 0 => w % 0x100
    case 1 => w / 0x100 % 0x100
    case 2 => w / 0x1_0000 % 0x100
    case _ => w / 0x100_0000 % 0x100
  }

  /** The four bytes of a word, lowest first. */
  lemma WordOfBytes(m: seq<nat>, base: nat, i: nat)
    requires i < |m| && m[i] < 0x1_0000_0000
    ensures var a := base + 4 * i;
            ByteAt(m, base, a) < 256 && ByteAt(m, base, a + 1) < 256 &&
            ByteAt(m, base, a + 2) < 256 && ByteAt(m, base, a + 3) < 256 &&
            m[i] == ByteAt(m, base, a) + 0x100 * ByteAt(m, base, a + 1) + 0x1_0000 * ByteAt(m, base, a + 2) +
                    0x100_0000 * ByteAt(m, base, a + 3)
  {
    var a, w := base + 4 * i, m[i];
    ByteOf(m, base, i, 0);
    ByteOf(m, base, i, 1);
    ByteOf(m, base, i, 2);
    ByteOf(m, base, i, 3);
    hide ByteAt;
    FourBytes(w);
  }

  lemma ByteOf(m: seq<nat>, base: nat, i: nat, k: nat)
    requires i < |m| && k < 4
    ensures (4 * i + k) / 4 == i
    ensures ByteAt(m, base, base + 4 * i + k)
            == (if k == 0 then m[i] else if k == 1 then m[i] / 0x100 else if k == 2 then m[i] / 0x1_0000
                else m[i] / 0x100_0000) % 0x100
  {
  }

  lemma FourBytes(w: nat)
    requires w < 0x1_0000_0000
    ensures w == w % 0x100 + 0x100 * (w / 0x100 % 0x100) + 0x1_0000 * (w / 0x1_0000 % 0x100) +
                 0x100_0000 * (w / 0x100_0000 % 0x100)
  {
    var x := w / 0x100;
    var y := x / 0x100;
    var z := y / 0x100;
    assert y == w / 0x1_0000;
    assert z == w / 0x100_0000;
  }

  /** Byte j of the area at `to` in m' is byte j of the area at `from` in m. */
  ghost predicate SameByte(m: seq<nat>, m': seq<nat>, base: nat, from: nat, to: nat, j: nat)
  {
    && base <= from && (from + j - base) / 4 < |m|
    && base <= to && (to + j - base) / 4 < |m'|
    && ByteAt(m', base, to + j) == ByteAt(m, base, from + j)
  }

  ghost predicate SameBytes(m: seq<nat>, m': seq<nat>, base: nat, from: nat, to: nat, len: nat)
  {
    forall j :: 0 <= j < len ==> SameByte(m, m', base, from, to, j)
  }

  /** A word-aligned payload and its destination lie inside the memory, and the destination is
      not below the payload or apart from it. */
  ghost predicate Placed(words: nat, base: nat, payload: nat, size: nat)
  {
    && base % 4 == 0 && payload % 4 == 0 && base <= payload
    && payload + Align4(size) <= base + 4 * words
    && base + Align4(size) <= RELOC_TOP <= base + 4 * words
    && (payload + Align4(size) <= RELOC_TOP || RELOC_TOP <= payload)
  }

  /** The loop of loader_main: n words, the last of them ending at IPL_RELOC_TOP. */
  method CopyWords(mem: array<nat>, base: nat, payload: nat, size: nat)
    requires Placed(mem.Length, base, payload, size)
    modifies mem
    ensures var n := Align4(size) / 4;
            mem[..] == CopyDown(old(mem[..]), (payload - base) / 4, (RELOC_TOP - base) / 4 - n, n)
  {
    var bytes := Align4(size) / 4;
    ghost var p, n := (payload - base) / 4, bytes;
    ghost var d := (RELOC_TOP - base) / 4 - n;
    var addr: int := (payload - base) / 4 + bytes - 1;
    var dst: int := (RELOC_TOP - base) / 4 - 1;
    while bytes > 0
      invariant 0 <= bytes <= n && addr == p + bytes - 1 && dst == d + bytes - 1
      invariant CopyDown(mem[..], p, d, bytes) == CopyDown(old(mem[..]), p, d, n)
    {
      mem[dst] := mem[addr];
      dst := dst - 1;
      addr := addr - 1;
      bytes := bytes - 1;
    }
  }

  /** Equal words are equal bytes. */
  lemma BytesMoved(m: seq<nat>, m': seq<nat>, base: nat, from: nat, to: nat, p: nat, d: nat, n: nat)
    requires p + n <= |m| && d + n <= |m| && Copied(m, m', p, d, n)
    requires from == base + 4 * p && to == base + 4 * d
    ensures SameBytes(m, m', base, from, to, 4 * n)
  {
  }

  lemma BytesFrom(m: seq<nat>, m': seq<nat>, base: nat, from: nat, to: nat, len: nat, offset: nat, size: nat)
    requires SameBytes(m, m', base, from, to, len) && offset + size <= len
    ensures SameBytes(m, m', base, from + offset, to + offset, size)
  {
    var f, t := from + offset, to + offset;
    forall j | 0 <= j < size
      ensures SameByte(m, m', base, f, t, j)
    {
      assert SameByte(m, m', base, from, to, offset + j);
    }
  }

  /** The same places as word indices. */
  lemma WordPlaces(words: nat, base: nat, payload: nat, size: nat)
    requires Placed(words, base, payload, size)
    ensures var p, n := (payload - base) / 4, Align4(size) / 4;
            var d := (RELOC_TOP - base) / 4 - n;
            && 4 * n == Align4(size) && payload == base + 4 * p && d >= 0 && RELOC_TOP - Align4(size) == base + 4 * d
            && p + n <= words && d + n <= words && (p <= d || d + n <= p)
  {
  }

  lemma WordsMoved(m: seq<nat>, m': seq<nat>, base: nat, from: nat, to: nat, p: nat, d: nat, n: nat)
    requires p + n <= |m| && d + n <= |m| && Copied(m, m', p, d, n)
    requires base % 4 == 0 && from == base + 4 * p && to == base + 4 * d && to + 4 * n == RELOC_TOP
    ensures |m'| == |m|
    ensures forall i {:trigger m'[i]} :: 0 <= i < |m| ==>
              m'[i] == if to <= base + 4 * i < 0x4003_8000 then m[i + from / 4 - to / 4] else m[i]
  {
    assert from / 4 - to / 4 == p - d;
  }

  /** The copy of loader_main and the address of the first part. */
  method MovePayload(mem: array<nat>, base: nat, payload: nat, size: nat) returns (src: nat)
    requires Placed(mem.Length, base, payload, size)
    modifies mem
    ensures base <= src && src % 4 == 0 && 0 <= 0x4003_8000 - src - size < 4
    ensures SameBytes(old(mem[..]), mem[..], base, payload, src, Align4(size))
    ensures forall i {:trigger mem[i]} :: 0 <= i < mem.Length ==>
        mem[i] == if src <= base + 4 * i < 0x4003_8000 then old(mem[..])[i + payload / 4 - src / 4] else old(mem[i])
  {
    hide Copied, CopyDown, SameBytes;
    WordPlaces(mem.Length, base, payload, size);
    ghost var p, n := (payload - base) / 4, Align4(size) / 4;
    ghost var d := (RELOC_TOP - base) / 4 - n;
    ghost var m := mem[..];
    CopyWords(mem, base, payload, size);
    CopyDownSafe(m, p, d, n);
    src := RELOC_TOP - Align4(size);
    BytesMoved(m, mem[..], base, payload, src, p, d, n);
    WordsMoved(m, mem[..], base, payload, src, p, d, n);
  }

  /** The sizes and the two source addresses of loader_main, given the two payload arrays, the
      second behind the first with any padding between them.  Each address has, byte for byte,
      what its array had before the copy, and the padding is carried along. */
  method Relocate(mem: array<nat>, base: nat, part0: nat, size0: nat, part1: nat, size1: nat)
    returns (src0: nat, src1: nat)
    requires part0 + size0 <= part1 && Placed(mem.Length, base, part0, part1 + size1 - part0)
    modifies mem
    ensures base <= src0 && src1 - src0 == part1 - part0
    ensures src0 % 4 == 0 && 0 <= 0x4003_8000 - (src1 + size1) < 4
    ensures SameBytes(old(mem[..]), mem[..], base, part0, src0, part1 - part0)
    ensures SameBytes(old(mem[..]), mem[..], base, part1, src1, size1)
  {
    hide Align4, SameByte, SameBytes;
    var payloadSize := size0 + size1;
    payloadSize := payloadSize + (part1 - part0 - size0);
    src0 := MovePayload(mem, base, part0, payloadSize);
    src1 := src0 + (part1 - part0);
    Align4Is(payloadSize);
    BytesFrom(old(mem[..]), mem[..], base, part0, src0, Align4(payloadSize), part1 - part0, size1);
    BytesFrom(old(mem[..]), mem[..], base, part0, src0, Align4(payloadSize), 0, part1 - part0);
  }
}
