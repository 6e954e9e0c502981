/**
 Signals packed into a payload: the bit walks of the decoder and of the encoder against plain
 integers. An Intel signal is a range of the payload's little-endian integer; a Motorola signal is a
 range of its big-endian one.
 */
module SignalBits {
  import opened Basics

  type Byte = b: nat | b < 256

  datatype Signal = Signal(start: nat, length: nat, little: bool, signed: bool, factor: real, offset: real)

  // ---- integers, bit by bit -------------------------------------------------------------------

  /** `(x >> j) & 1` */
  function Bit(x: nat, j: nat): (b: nat)
    ensures b < 2
    decreases j
  {
    if j == 0 then x % 2 else Bit(x / 2, j - 1)
  }

  /** `x >> k` */
  function Shift(x: nat, k: nat): nat
    decreases k
  {
    if k == 0 then x else Shift(x / 2, k - 1)
  }

  /** `x & ((1 << k) - 1)` */
  function Low(x: nat, k: nat): nat
    decreases k
  {
    if k == 0 then 0 else x % 2 + 2 * Low(x / 2, k - 1)
  }

  /** `x` with bit `j` set or cleared. */
  function WithBit(x: nat, j: nat, b: nat): nat
    requires b < 2
    decreases j
  {
    if j == 0 then x / 2 * 2 + b else x % 2 + 2 * WithBit(x / 2, j - 1, b)
  }

  /** `length` bits of `x` from bit `start` up. */
  function Field(x: nat, start: nat, length: nat): nat { Low(Shift(x, start), length) }

  lemma {:induction false} ShiftDivides(x: nat, k: nat)
    ensures Shift(x, k) == x / Pow2(k)
    decreases k
  {
    if k > 0 {
      ShiftDivides(x / 2, k - 1);
      HalfThen(x, Pow2(k - 1));
    }
  }

  function Times(a: nat, b: nat): nat { a * b }

  lemma TimesTwice(p: nat, q: nat)
    ensures Times(2 * p, q) == 2 * Times(p, q) && Times(p, q + 1) == Times(p, q) + p
    ensures p > 0 ==> Times(p, q) >= q
  {}

  lemma TimesMono(p: nat, q: nat, r: nat)
    requires q < r
    ensures Times(p, q) + p <= Times(p, r)
  {
    assert Times(p, r) == Times(p, q) + Times(p, r - q);
    assert Times(p, r - q) >= p;
  }

  lemma Quotient(x: nat, p: nat, q: nat, r: nat)
    requires p > 0 && x == Times(p, q) + r && r < p
    ensures x / p == q && x % p == r
  {
    assert x == Times(p, x / p) + x % p;
    hide Times;
    if x / p < q { TimesMono(p, x / p, q); } else if q < x / p { TimesMono(p, q, x / p); }
  }

  lemma HalfThen(x: nat, p: nat)
    requires p > 0
    ensures x / 2 / p == x / (2 * p)
    ensures x % (2 * p) == x % 2 + 2 * (x / 2 % p)
  {
    var h := x / 2;
    assert h == Times(p, h / p) + h % p;
    TimesTwice(p, h / p);
    hide Times;
    Quotient(x, 2 * p, h / p, x % 2 + 2 * (h % p));
  }

  lemma {:induction false} LowIsRemainder(x: nat, k: nat)
    ensures Low(x, k) == x % Pow2(k) < Pow2(k)
    decreases k
  {
    if k > 0 {
      LowIsRemainder(x / 2, k - 1);
      HalfThen(x, Pow2(k - 1));
    }
  }

  lemma {:induction false} BitOfShift(x: nat, s: nat, j: nat)
    ensures Bit(Shift(x, s), j) == Bit(x, s + j)
    decreases s
  {
    if s > 0 { BitOfShift(x / 2, s - 1, j); }
  }

  lemma {:induction false} BitOfLow(x: nat, k: nat, j: nat)
    ensures Bit(Low(x, k), j) == if j < k then Bit(x, j) else 0
    decreases k, j
  {
    if k == 0 {
      ZeroBits(j);
    } else if j > 0 {
      BitOfLow(x / 2, k - 1, j - 1);
    }
  }

  lemma {:induction false} ZeroBits(j: nat)
    ensures Bit(0, j) == 0
  {
    if j > 0 { ZeroBits(j - 1); }
  }

  lemma {:induction false} BitOfWith(x: nat, k: nat, b: nat, j: nat)
    requires b < 2
    ensures Bit(WithBit(x, k, b), j) == if j == k then b else Bit(x, j)
    decreases k
  {
    if k > 0 && j > 0 { BitOfWith(x / 2, k - 1, b, j - 1); }
  }

  lemma {:induction false} WithBitFits(x: nat, k: nat, b: nat, n: nat)
    requires b < 2 && x < Pow2(n) && k < n
    ensures WithBit(x, k, b) < Pow2(n)
    decreases n
  {
    var p := Pow2(n - 1);
    assert Pow2(n) == 2 * p;
    hide Pow2;
    assert x / 2 < p;
    if k > 0 {
      WithBitFits(x / 2, k - 1, b, n - 1);
    }
  }

  /** Two numbers of `k` bits with the same bits are the same. */
  lemma {:induction false} SameBits(x: nat, y: nat, k: nat)
    requires forall j: nat :: j < k ==> Bit(x, j) == Bit(y, j)
    ensures Low(x, k) == Low(y, k)
    decreases k
  {
    if k > 0 {
      assert Bit(x, 0) == Bit(y, 0);
      forall j: nat | j < k - 1 ensures Bit(x / 2, j) == Bit(y / 2, j) {
        assert Bit(x, j + 1) == Bit(y, j + 1);
      }
      SameBits(x / 2, y / 2, k - 1);
    }
  }

  lemma {:induction false} LowOfSmall(x: nat, k: nat)
    requires x < Pow2(k)
    ensures Low(x, k) == x
    decreases k
  {
    if k > 0 { LowOfSmall(x / 2, k - 1); }
  }

  /** One more bit above. */
  lemma {:induction false} LowNext(x: nat, k: nat)
    ensures Low(x, k + 1) == Low(x, k) + if Bit(x, k) == 1 then Pow2(k) else 0
    decreases k
  {
    if k > 0 { LowNext(x / 2, k - 1); }
  }

  lemma {:induction false} ShiftNext(x: nat, k: nat)
    ensures Shift(x, k + 1) == Shift(x, k) / 2
    decreases k
  {
    if k > 0 { ShiftNext(x / 2, k - 1); }
  }

  lemma {:induction false} TopBit(x: nat, k: nat)
    requires k > 0 && x < Pow2(k)
    ensures Bit(x, k - 1) == if x >= Pow2(k - 1) then 1 else 0
    decreases k
  {
    if k > 1 { TopBit(x / 2, k - 1); }
  }

  /** A field is a shift and a remainder. */
  lemma FieldIsArithmetic(x: nat, start: nat, length: nat)
    ensures Field(x, start, length) == x / Pow2(start) % Pow2(length)
  {
    ShiftDivides(x, start);
    LowIsRemainder(Shift(x, start), length);
  }

  // ---- payloads -------------------------------------------------------------------------------

  function LittleEndian(data: seq<Byte>): nat {
    if data == [] then 0 else data[0] + 256 * LittleEndian(data[1..])
  }

  function BigEndian(data: seq<Byte>): nat {
    if data == [] then 0 else data[|data| - 1] + 256 * BigEndian(data[..|data| - 1])
  }

  function ZeroExtended(data: seq<Byte>, n: nat): (r: seq<Byte>)
    requires n >= |data|
    ensures |r| == n
  {
    data + seq(n - |data|, _ => 0)
  }

  /** Bit `g` of a payload, bit 0 the lowest of the first byte; none past the end. */
  function BitAt(data: seq<Byte>, g: nat): (b: nat)
    ensures b < 2
  {
    if g / 8 < |data| then Bit(data[g / 8], g % 8) else 0
  }

  /** `k` bits of `low`, and `high` above them. */
  function Join(low: nat, high: nat, k: nat): nat
    decreases k
  {
    if k == 0 then high else low % 2 + 2 * Join(low / 2, high, k - 1)
  }

  lemma {:induction false} BitOfJoin(low: nat, high: nat, k: nat, j: nat)
    ensures Bit(Join(low, high, k), j) == if j < k then Bit(low, j) else Bit(high, j - k)
    decreases k
  {
    if k > 0 && j > 0 { BitOfJoin(low / 2, high, k - 1, j - 1); }
  }

  lemma {:induction false} JoinAdds(low: nat, high: nat, k: nat)
    requires low < Pow2(k)
    ensures Join(low, high, k) == low + Times(Pow2(k), high)
    decreases k
  {
    if k > 0 {
      JoinAdds(low / 2, high, k - 1);
      TimesTwice(Pow2(k - 1), high);
    }
  }

  lemma EightBits()
    ensures Pow2(8) == 256
  {
    assert Pow2(4) == 16;
  }

  lemma ByteThen(b: Byte, rest: nat, j: nat)
    ensures Bit(b + 256 * rest, j) == if j < 8 then Bit(b, j) else Bit(rest, j - 8)
  {
    hide Bit, Join, Pow2;
    EightBits();
    JoinAdds(b, rest, 8);
    BitOfJoin(b, rest, 8, j);
  }

  lemma {:induction false} LittleEndianBits(data: seq<Byte>, g: nat)
    ensures Bit(LittleEndian(data), g) == BitAt(data, g)
  {
    if data == [] {
      ZeroBits(g);
    } else {
      ByteThen(data[0], LittleEndian(data[1..]), g);
      if g >= 8 { LittleEndianBits(data[1..], g - 8); }
    }
  }

  /** The big-endian integer has the payload's bits from its top down. */
  lemma {:induction false} BigEndianBits(data: seq<Byte>, q: nat)
    requires q < 8 * |data|
    ensures Bit(BigEndian(data), 8 * |data| - 1 - q) == Bit(data[q / 8], 7 - q % 8)
    decreases |data|
  {
    var n := |data| - 1;
    ByteThen(data[n], BigEndian(data[..n]), 8 * |data| - 1 - q);
    if q < 8 * n { BigEndianBits(data[..n], q); }
  }

  // ---- reading --------------------------------------------------------------------------------

  /** Where bit `pos` comes when the payload is read from its first byte's top bit on. */
  function Place(pos: nat): nat { 8 * (pos / 8) + 7 - pos % 8 }

  /** The sawtooth: down a byte, then to the top of the next. */
  function Sawtooth(pos: nat): nat { if pos % 8 == 0 then pos + 15 else pos - 1 }

  lemma SawtoothIsNext(pos: nat)
    ensures Place(Sawtooth(pos)) == Place(pos) + 1
  {
    var q, r := pos / 8, pos % 8;
    assert pos == 8 * q + r;
    if r == 0 { assert pos + 15 == 8 * (q + 1) + 7; } else { assert pos - 1 == 8 * q + (r - 1); }
  }

  /** How many bytes a Motorola signal needs, or the payload has. */
  function Reach(sig: Signal, data: seq<Byte>): (n: nat)
    ensures n >= |data| && 8 * n >= Place(sig.start) + sig.length
  {
    var needed := (Place(sig.start) + sig.length + 7) / 8;
    if needed > |data| then needed else |data|
  }

  /** The signal as a range of a plain integer: the payload's, zero past its end. */
  function RawOf(sig: Signal, data: seq<Byte>): nat {
    if sig.little then Field(LittleEndian(data), sig.start, sig.length)
    else
      var n := Reach(sig, data);
      Field(BigEndian(ZeroExtended(data, n)), 8 * n - Place(sig.start) - sig.length, sig.length)
  }

  lemma IntelStep(x: nat, start: nat, i: nat, b: nat)
    requires b == Bit(x, start + i)
    ensures Field(x, start, i + 1) == if b == 1 then WithBit(Field(x, start, i), i, 1) else Field(x, start, i)
  {
    BitOfShift(x, start, i);
    LowNext(Shift(x, start), i);
    if b == 1 { AddTop(Shift(x, start), i); }
  }

  lemma {:induction false} AddTop(x: nat, k: nat)
    ensures WithBit(Low(x, k), k, 1) == Low(x, k) + Pow2(k)
    decreases k
  {
    if k > 0 { AddTop(x / 2, k - 1); }
  }

  lemma MotorolaStep(x: nat, m: nat, i: nat)
    ensures Low(Shift(x, m), i + 1) == 2 * Low(Shift(x, m + 1), i) + Bit(x, m)
  {
    hide Shift;
    ShiftNext(x, m);
    BitOfShift(x, m, 0);
  }

  lemma MotorolaBit(data: seq<Byte>, n: nat, pos: nat)
    requires n >= |data| && Place(pos) < 8 * n
    ensures Bit(BigEndian(ZeroExtended(data, n)), 8 * n - 1 - Place(pos)) == BitAt(data, pos)
  {
    var q := Place(pos);
    assert q / 8 == pos / 8 && 7 - q % 8 == pos % 8 by {
      assert q == 8 * (pos / 8) + (7 - pos % 8);
    }
    hide Bit, BigEndian;
    BigEndianBits(ZeroExtended(data, n), q);
    ZeroBits(pos % 8);
  }

  /** The walk over the payload's bits. */
  method RawValue(sig: Signal, data: seq<Byte>) returns (raw: nat)
    ensures raw == RawOf(sig, data)
  {
    hide Bit, Shift, Low, WithBit, LittleEndian, BigEndian;
    if sig.little {
      raw := IntelWalk(sig, data);
    } else {
      raw := MotorolaWalk(sig, data);
    }
  }

  method IntelWalk(sig: Signal, data: seq<Byte>) returns (raw: nat)
    ensures raw == Field(LittleEndian(data), sig.start, sig.length)
  {
    hide Bit, Shift, WithBit, LittleEndian;
    raw := 0;
    for i := 0 to sig.length
      invariant raw == Field(LittleEndian(data), sig.start, i)
    {
      hide Field, Low;
      var g := sig.start + i;
      LittleEndianBits(data, g);
      IntelStep(LittleEndian(data), sig.start, i, BitAt(data, g));
      if g / 8 < |data| && Bit(data[g / 8], g % 8) == 1 {
        raw := WithBit(raw, i, 1);
      }
    }
  }

  /** Most significant bit first. */
  method MotorolaWalk(sig: Signal, data: seq<Byte>) returns (raw: nat)
    requires !sig.little
    ensures raw == RawOf(sig, data)
  {
    hide Bit, Shift, BigEndian, Place, Sawtooth;
    ghost var n, p := Reach(sig, data), Place(sig.start);
    ghost var x := BigEndian(ZeroExtended(data, n));
    raw := 0;
    var pos: nat := sig.start;
    for i := 0 to sig.length
      invariant Place(pos) == p + i && raw == Low(Shift(x, 8 * n - p - i), i)
    {
      hide Low;
      MotorolaStep(x, 8 * n - p - i - 1, i);
      MotorolaBit(data, n, pos);
      raw := 2 * raw + if pos / 8 < |data| then Bit(data[pos / 8], pos % 8) else 0;
      SawtoothIsNext(pos);
      pos := Sawtooth(pos);
    }
  }

  // ---- writing --------------------------------------------------------------------------------

  /** What packing leaves: the field's bits are the value's, every other bit is as it was. */
  ghost predicate Wrote(d: seq<Byte>, d': seq<Byte>, start: nat, length: nat, raw: int) {
    |d'| == |d| && forall g: nat :: g < 8 * |d| ==>
      BitAt(d', g) == if start <= g < start + length then Bit(raw % Pow2(length), g - start) else BitAt(d, g)
  }

  /** So far: the field's first `i` bits. */
  ghost predicate WroteSome(d: seq<Byte>, d': seq<Byte>, start: nat, i: nat, value: nat) {
    |d'| == |d| && forall g: nat :: g < 8 * |d| ==>
      BitAt(d', g) == if start <= g < start + i then Bit(value, g - start) else BitAt(d, g)
  }

  lemma ByteFits(b: Byte, k: nat, v: nat)
    requires k < 8 && v < 2
    ensures WithBit(b, k, v) < 256
  {
    EightBits();
    WithBitFits(b, k, v, 8);
  }

  lemma WroteOneMore(d: seq<Byte>, d1: seq<Byte>, d2: seq<Byte>, start: nat, i: nat, value: nat)
    requires WroteSome(d, d1, start, i, value) && (start + i) / 8 < |d| == |d2|
    requires WithBit(d1[(start + i) / 8], (start + i) % 8, Bit(value, i)) < 256
    requires d2 == d1[(start + i) / 8 := WithBit(d1[(start + i) / 8], (start + i) % 8, Bit(value, i))]
    ensures WroteSome(d, d2, start, i + 1, value)
  {
    hide Bit, WithBit;
    var at := start + i;
    forall g: nat | g < 8 * |d|
      ensures BitAt(d2, g) == if start <= g < start + (i + 1) then Bit(value, g - start) else BitAt(d, g)
    {
      if g / 8 == at / 8 { BitOfWith(d1[at / 8], at % 8, Bit(value, i), g % 8); }
      assert BitAt(d1, g) == if start <= g < start + i then Bit(value, g - start) else BitAt(d, g);
    }
  }

  /** Packs `raw` into the payload, in place; false where Python raises for want of a byte, what was
      packed before that left as it is. */
  method SetSignal(data: array<Byte>, start: nat, length: nat, raw: int) returns (ok: bool)
    modifies data
    ensures Wrote(old(data[..]), data[..], start, length, raw)
    ensures ok <==> length == 0 || start + length <= 8 * data.Length
  {
    hide Bit, WithBit;
    var value: nat := raw % Pow2(length);
    for i := 0 to length
      invariant WroteSome(old(data[..]), data[..], start, i, value)
      invariant i > 0 ==> start + i <= 8 * data.Length
    {
      hide WroteSome;
      var g := start + i;
      if g / 8 >= data.Length {
        NoMoreBytes(old(data[..]), data[..], start, i, length, raw);
        return false;
      }
      ByteFits(data[g / 8], g % 8, Bit(value, i));
      ghost var d1 := data[..];
      data[g / 8] := WithBit(data[g / 8], g % 8, Bit(value, i));
      assert data[..] == d1[g / 8 := data[g / 8]];
      WroteOneMore(old(data[..]), d1, data[..], start, i, value);
    }
    ok := true;
  }

  lemma NoMoreBytes(d: seq<Byte>, d': seq<Byte>, start: nat, i: nat, length: nat, raw: int)
    requires WroteSome(d, d', start, i, raw % Pow2(length)) && i < length && (start + i) / 8 >= |d|
    ensures Wrote(d, d', start, length, raw)
  {
    hide Bit, BitAt;
  }

  // ---- what was packed is what is read --------------------------------------------------------

  /** The bits say everything there is to say about a payload. */
  lemma {:induction false} BitsDecide(a: seq<Byte>, b: seq<Byte>)
    requires |a| == |b| && forall g: nat :: g < 8 * |a| ==> BitAt(a, g) == BitAt(b, g)
    ensures a == b
  {
    hide Bit;
    forall k | 0 <= k < |a| ensures a[k] == b[k] {
      forall j: nat | j < 8 ensures Bit(a[k], j) == Bit(b[k], j) {
        assert BitAt(a, 8 * k + j) == BitAt(b, 8 * k + j);
      }
      SameBits(a[k], b[k], 8);
      EightBits();
      LowOfSmall(a[k], 8);
      LowOfSmall(b[k], 8);
    }
  }

  lemma FieldOfBits(x: nat, start: nat, length: nat, value: nat)
    requires value < Pow2(length) && forall j: nat :: j < length ==> Bit(x, start + j) == Bit(value, j)
    ensures Field(x, start, length) == value
  {
    hide Bit, Shift, Low;
    forall j: nat | j < length ensures Bit(Shift(x, start), j) == Bit(value, j) {
      BitOfShift(x, start, j);
    }
    SameBits(Shift(x, start), value, length);
    LowOfSmall(value, length);
  }

  /** An Intel signal reads back as the value packed, modulo its length. */
  lemma PackedReadsBack(d: seq<Byte>, d': seq<Byte>, sig: Signal, raw: int)
    requires Wrote(d, d', sig.start, sig.length, raw) && sig.little && sig.start + sig.length <= 8 * |d|
    ensures RawOf(sig, d') == raw % Pow2(sig.length)
  {
    hide Bit, Field, LittleEndian;
    var value: nat := raw % Pow2(sig.length);
    forall j: nat | j < sig.length ensures Bit(LittleEndian(d'), sig.start + j) == Bit(value, j) {
      LittleEndianBits(d', sig.start + j);
      assert BitAt(d', sig.start + j) == Bit(value, sig.start + j - sig.start);
    }
    FieldOfBits(LittleEndian(d'), sig.start, sig.length, value);
  }

  /** Packing one signal leaves any other that shares no bit with it as it was. */
  lemma OthersUntouched(d: seq<Byte>, d': seq<Byte>, start: nat, length: nat, raw: int, other: Signal)
    requires Wrote(d, d', start, length, raw) && other.little
    requires other.start + other.length <= start || start + length <= other.start
    ensures RawOf(other, d') == RawOf(other, d)
  {
    hide Bit, Shift, Low, LittleEndian;
    var x, x' := LittleEndian(d), LittleEndian(d');
    forall j: nat | j < other.length ensures Bit(Shift(x', other.start), j) == Bit(Shift(x, other.start), j) {
      var g := other.start + j;
      BitOfShift(x, other.start, j);
      BitOfShift(x', other.start, j);
      LittleEndianBits(d, g);
      LittleEndianBits(d', g);
      if g < 8 * |d| { assert BitAt(d', g) == BitAt(d, g); }
    }
    SameBits(Shift(x', other.start), Shift(x, other.start), other.length);
  }

  /** Signals that share no bit can be packed in either order. */
  lemma DisjointCommute(d: seq<Byte>, a: seq<Byte>, ab: seq<Byte>, b: seq<Byte>, ba: seq<Byte>,
                        start: nat, length: nat, raw: int, start': nat, length': nat, raw': int)
    requires start + length <= start' || start' + length' <= start
    requires Wrote(d, a, start, length, raw) && Wrote(a, ab, start', length', raw')
    requires Wrote(d, b, start', length', raw') && Wrote(b, ba, start, length, raw)
    ensures ab == ba
  {
    hide Bit, Pow2, BitAt;
    forall g: nat | g < 8 * |d| ensures BitAt(ab, g) == BitAt(ba, g) {
      assert BitAt(a, g) == if start <= g < start + length then Bit(raw % Pow2(length), g - start) else BitAt(d, g);
      assert BitAt(b, g) ==
        if start' <= g < start' + length' then Bit(raw' % Pow2(length'), g - start') else BitAt(d, g);
    }
    BitsDecide(ab, ba);
  }

  // ---- signed values --------------------------------------------------------------------------

  /** A signed raw value, its top bit taken as its sign below 64 bits. */
  function Signed(sig: Signal, raw: nat): int {
    if sig.signed && 0 < sig.length < 64 && Bit(raw, sig.length - 1) == 1 then raw - Pow2(sig.length) else raw
  }

  function Physical(sig: Signal, data: seq<Byte>): real {
    Signed(sig, RawOf(sig, data)) as real * sig.factor + sig.offset
  }

  lemma NegativeRemainder(v: int, p: nat)
    requires p > 0 && 0 <= v + p < 2 * p
    ensures v % p == if v < 0 then v + p else v
  {}

  /** In two's complement of the signal's length. */
  predicate InRange(sig: Signal, v: int)
    requires sig.length > 0
  {
    0 <= v + Pow2(sig.length - 1) && v < Pow2(sig.length - 1)
  }

  /** A signed value in range packs and reads back as itself just when it is not negative, or its
      signal is shorter than 64 bits. */
  lemma SignedReadsBack(sig: Signal, v: int)
    requires sig.signed && sig.length > 0 && InRange(sig, v)
    ensures Signed(sig, v % Pow2(sig.length)) == v <==> sig.length < 64 || v >= 0
  {
    NegativeRemainder(v, Pow2(sig.length));
    TopBit(v % Pow2(sig.length), sig.length);
  }

  /** An unsigned one that fits reads back whatever its length, its top bit being a bit like any other. */
  lemma UnsignedReadsBack(sig: Signal, v: nat)
    requires !sig.signed && v < Pow2(sig.length)
    ensures Signed(sig, v % Pow2(sig.length)) == v
  {
    NegativeRemainder(v, Pow2(sig.length));
  }

  /** Every negative one of 64 bits comes back too large by all of 2 to the 64. */
  lemma LongNegativeLost(sig: Signal, v: int)
    requires sig.signed && sig.length == 64 && v < 0 <= v + Pow2(63)
    ensures Signed(sig, v % Pow2(64)) == v + Pow2(64) != v
  {
    NegativeRemainder(v, Pow2(64));
  }

  /** The physical value packed is the one decoded. */
  lemma PhysicalReadsBack(d: seq<Byte>, d': seq<Byte>, sig: Signal, v: int)
    requires Wrote(d, d', sig.start, sig.length, v) && sig.little && sig.start + sig.length <= 8 * |d|
    requires sig.length > 0 && if sig.signed then sig.length < 64 && InRange(sig, v) else 0 <= v < Pow2(sig.length)
    ensures Physical(sig, d') == v as real * sig.factor + sig.offset
  {
    hide Wrote, RawOf;
    PackedReadsBack(d, d', sig, v);
    if sig.signed { SignedReadsBack(sig, v); } else { UnsignedReadsBack(sig, v); }
  }

  // ---- the powertrain message -----------------------------------------------------------------

  const STARTS: seq<nat> := [0, 16, 28, 36, 43, 47]
  const LENGTHS: seq<nat> := [16, 12, 8, 7, 4, 1]

  function Intel(start: nat, length: nat): Signal { Signal(start, length, true, false, 1.0, 0.0) }

  /** The first `k` signals read back, and nothing is set past the last. */
  ghost predicate Packed(data: seq<Byte>, k: nat, values: seq<int>)
    requires k <= 6 == |values|
  {
    && |data| == 8 && (forall g: nat :: 48 <= g < 64 ==> BitAt(data, g) == 0)
    && forall i :: 0 <= i < k ==> RawOf(Intel(STARTS[i], LENGTHS[i]), data) == values[i] % Pow2(LENGTHS[i])
  }

  lemma PackedNext(d: seq<Byte>, d': seq<Byte>, k: nat, values: seq<int>)
    requires k < 6 == |values| && Packed(d, k, values) && Wrote(d, d', STARTS[k], LENGTHS[k], values[k])
    ensures Packed(d', k + 1, values)
  {
    hide BitAt, RawOf, Pow2;
    forall i | 0 <= i < k + 1 ensures RawOf(Intel(STARTS[i], LENGTHS[i]), d') == values[i] % Pow2(LENGTHS[i]) {
      if i == k {
        PackedReadsBack(d, d', Intel(STARTS[k], LENGTHS[k]), values[k]);
      } else {
        OthersUntouched(d, d', STARTS[k], LENGTHS[k], values[k], Intel(STARTS[i], LENGTHS[i]));
      }
    }
  }

  lemma NothingPacked(d: seq<Byte>, values: seq<int>)
    requires |d| == 8 && |values| == 6 && forall k :: 0 <= k < 8 ==> d[k] == 0
    ensures Packed(d, 0, values)
  {
    forall g: nat | 48 <= g < 64 ensures BitAt(d, g) == 0 { ZeroBits(g % 8); }
  }

  /** Six signals into eight bytes: each reads back, modulo its length. */
  method EncodePowertrain(values: seq<int>) returns (data: array<Byte>)
    requires |values| == 6
    ensures fresh(data) && Packed(data[..], 6, values)
  {
    hide Packed, Wrote;
    data := new Byte[8](_ => 0);
    NothingPacked(data[..], values);
    ghost var d0 := data[..];
    var ok := SetSignal(data, 0, 16, values[0]);
    PackedNext(d0, data[..], 0, values);
    ghost var d1 := data[..];
    ok := SetSignal(data, 16, 12, values[1]);
    PackedNext(d1, data[..], 1, values);
    ghost var d2 := data[..];
    ok := SetSignal(data, 28, 8, values[2]);
    PackedNext(d2, data[..], 2, values);
    ghost var d3 := data[..];
    ok := SetSignal(data, 36, 7, values[3]);
    PackedNext(d3, data[..], 3, values);
    ghost var d4 := data[..];
    ok := SetSignal(data, 43, 4, values[4]);
    PackedNext(d4, data[..], 4, values);
    ghost var d5 := data[..];
    ok := SetSignal(data, 47, 1, values[5]);
    PackedNext(d5, data[..], 5, values);
  }
}
