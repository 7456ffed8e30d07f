/**
 The minimal protobuf wire codec: base-128 varints over 64-bit two's-complement integers (Protocol Buffers
 Encoding, section "Base 128 Varints") and length-delimited fields.  PHP's integers are 64 bits wide, so
 its shifts and masks are written out on unbounded integers here.
 */
module Proto {

  type Byte = b: int | 0 <= b < 256
  type Bytes = seq<Byte>

  const TWO57: int := 0x200_0000_0000_0000
  const TWO60: int := 0x1000_0000_0000_0000
  const TWO63: int := 0x8000_0000_0000_0000
  const TWO64: int := 0x1_0000_0000_0000_0000

  predicate Int64(v: int)
  {
    -TWO63 <= v < TWO63
  }

  /** The bits of a two's-complement value read as an unsigned number, and back. */
  function Unsigned(v: int): int
  {
    if v < 0 then v + TWO64 else v
  }

  function Signed(u: int): int
  {
    if u < TWO63 then u else u - TWO64
  }

  /** What is left of a number in 64 bits. */
  function Wrap(x: int): int
  {
    Signed(x % TWO64)
  }

  // ---------------------------------------------------------------- varints

  function Base128(u: nat): (b: Bytes)
    ensures b != []
  {
    if u < 128 then [u] else [u % 128 + 128] + Base128(u / 128)
  }

  datatype Read<T> = Got(value: T, next: nat) | Bad

  /** The number whose septets start at `i`, least significant first, of any length. */
  function Septets(bytes: Bytes, i: nat): (r: Read<nat>)
    ensures r.Got? ==> i < r.next <= |bytes|
    decreases |bytes| - i
  {
    if i >= |bytes| then Bad
    else if bytes[i] < 128 then Got(bytes[i], i + 1)
    else
      match Septets(bytes, i + 1)
      case Bad => Bad
      case Got(more, next) => Got(bytes[i] % 128 + 128 * more, next)
  }

  function ReadVarint(bytes: Bytes, i: nat): (r: Read<int>)
    ensures r.Got? ==> i < r.next <= |bytes| && Int64(r.value)
  {
    match Septets(bytes, i)
    case Bad => Bad
    case Got(u, next) => Got(Wrap(u), next)
  }

  lemma {:induction false} SeptetsOfBase128(pre: Bytes, u: nat, post: Bytes)
    ensures Septets(pre + Base128(u) + post, |pre|) == Got(u, |pre| + |Base128(u)|)
    decreases u
  {
    var whole := pre + Base128(u) + post;
    if u >= 128 {
      var more := pre + [u % 128 + 128];
      SeptetsOfBase128(more, u / 128, post);
      assert whole == more + Base128(u / 128) + post;
    }
    assert whole[|pre|] == Base128(u)[0];
  }

  function Pow128(k: nat): nat
  {
    if k == 0 then 1 else 128 * Pow128(k - 1)
  }

  /** A number takes k septets exactly when it needs them. */
  lemma {:induction false} Base128Length(u: nat, k: nat)
    requires k > 0
    ensures |Base128(u)| <= k <==> u < Pow128(k)
    decreases k
  {
    if k > 1 {
      Base128Length(u / 128, k - 1);
      assert Pow128(k) == 128 * Pow128(k - 1);
    } else {
      assert Pow128(1) == 128 * Pow128(0) == 128;
    }
  }

  /** Every 64-bit value survives, in one to ten bytes; a negative one takes all ten. */
  lemma VarintRoundTrip(pre: Bytes, v: int, post: Bytes)
    requires Int64(v)
    ensures var b := Base128(Unsigned(v));
      && ReadVarint(pre + b + post, |pre|) == Got(v, |pre| + |b|)
      && 1 <= |b| <= 10 && (v < 0 ==> |b| == 10)
  {
    SeptetsOfBase128(pre, Unsigned(v), post);
    Base128Length(Unsigned(v), 10);
    Base128Length(Unsigned(v), 9);
    PowersOf128();
    assert Unsigned(v) % TWO64 == Unsigned(v);
  }

  lemma PowersOf128()
    ensures Pow128(9) == TWO63 && Pow128(10) >= TWO64
  {
    assert Pow128(3) == 128 * (128 * 128);
    assert Pow128(6) == 128 * (128 * (128 * Pow128(3)));
    assert Pow128(9) == 128 * (128 * (128 * Pow128(6)));
  }

  /** A varint cut short is refused, never completed with something made up. */
  lemma {:induction false} CutVarintIsRefused(pre: Bytes, u: nat, k: nat)
    requires k < |Base128(u)|
    ensures Septets(pre + Base128(u)[..k], |pre|) == Bad
    decreases u
  {
    var whole := pre + Base128(u)[..k];
    if k > 0 {
      assert u >= 128;
      var more := pre + [u % 128 + 128];
      CutVarintIsRefused(more, u / 128, k - 1);
      assert whole == more + Base128(u / 128)[..k - 1];
      assert whole[|pre|] == u % 128 + 128;
    }
  }

  /** `($value >> 7) & 0x01ffffffffffffff`: the logical shift, written with PHP's arithmetic one. */
  function ShiftRight7(v: int): int
  {
    (v / 128) % TWO57
  }

  lemma ShiftIsLogical(v: int)
    requires Int64(v)
    ensures ShiftRight7(v) == Unsigned(v) / 128 && v % 128 == Unsigned(v) % 128
  {
    if v < 0 {
      assert (v + TWO64) / 128 == v / 128 + TWO57;
    }
  }

  lemma Base128Steps(u: nat)
    ensures if u < 128 then Base128(u) == [u] else Base128(u) == [u % 128 + 128] + Base128(u / 128)
    ensures u < 128 <==> u / 128 == 0
  {
  }

  lemma Associates(a: Bytes, b: Bytes, c: Bytes)
    ensures a + b + c == a + (b + c)
  {
  }

  method Varint(value: int) returns (encoded: Bytes)
    requires Int64(value)
    ensures encoded == Base128(Unsigned(value))
  {
    hide Base128, ShiftRight7;
    encoded := [];
    var v := value;
    while true
      invariant Int64(v) && encoded + Base128(Unsigned(v)) == Base128(Unsigned(value))
      decreases Unsigned(v)
    {
      ShiftIsLogical(v);
      ghost var before, u := encoded, Unsigned(v);
      Base128Steps(u);
      var septet := v % 128;
      v := ShiftRight7(v);
      if v == 0 {
        encoded := encoded + [septet];
        return;
      }
      encoded := encoded + [septet + 128];
      Associates(before, [septet + 128], Base128(v));
    }
  }

  function Pow2(n: nat): nat
  {
    if n == 0 then 1 else 2 * Pow2(n - 1)
  }

  /** Bit by bit. */
  function Or(a: nat, b: nat): nat
    decreases a, b
  {
    if a == 0 && b == 0 then 0
    else (if a % 2 == 1 || b % 2 == 1 then 1 else 0) + 2 * Or(a / 2, b / 2)
  }

  /** The bits that a left shift leaves in 64; PHP makes a shift by 64 or more 0. */
  function ShiftLeft(x: nat, shift: nat): nat
  {
    if shift >= 64 then 0 else x * Pow2(shift) % TWO64
  }

  /** `$value |= $septet << $shift`. */
  function OrShifted(value: int, septet: nat, shift: nat): int
    requires Int64(value)
  {
    Signed(Or(Unsigned(value), ShiftLeft(septet, shift)))
  }

  lemma {:induction false} OrZero(a: nat)
    ensures Or(a, 0) == a && Or(0, a) == a
  {
    if a != 0 {
      OrZero(a / 2);
    }
  }

  /** Where no bit is set in both, or-ing is adding. */
  lemma {:induction false} OrIsSum(a: nat, b: nat, shift: nat)
    requires a < Pow2(shift)
    ensures Or(a, b * Pow2(shift)) == a + b * Pow2(shift)
  {
    if shift == 0 {
      OrZero(b);
    } else {
      var half := b * Pow2(shift - 1);
      assert b * Pow2(shift) == 2 * half;
      OrIsSum(a / 2, b, shift - 1);
    }
  }

  lemma {:induction false} Pow2Sum(a: nat, b: nat)
    ensures Pow2(a + b) == Pow2(a) * Pow2(b)
  {
    if a != 0 {
      Pow2Sum(a - 1, b);
      assert Pow2(a + b) == 2 * Pow2(a - 1 + b);
      assert 2 * (Pow2(a - 1) * Pow2(b)) == Pow2(a) * Pow2(b);
    }
  }

  lemma Pow2Of64()
    ensures Pow2(7) == 128 && Pow2(64) == TWO64
  {
    Pow2Sum(7, 7);
    Pow2Sum(14, 14);
    Pow2Sum(28, 28);
    Pow2Sum(56, 8);
    assert Pow2(8) == 2 * Pow2(7);
  }

  lemma {:induction false} Pow2Grows(a: nat, b: nat)
    requires a <= b
    ensures 0 < Pow2(a) <= Pow2(b)
  {
    if a < b {
      Pow2Grows(a, b - 1);
    } else if a > 0 {
      Pow2Grows(a - 1, b - 1);
    }
  }

  lemma ShiftedAway(raw: nat, septet: nat, high: nat)
    ensures (raw + septet * (TWO64 * high)) % TWO64 == raw % TWO64
  {
    assert septet * (TWO64 * high) == TWO64 * (septet * high);
  }

  /** The bits of a shifted septet that stay below 2^64, beside the lower bits in use. */
  lemma CutSeptet(raw: nat, septet: nat, unit: nat, high: nat)
    requires raw < unit && 0 < high && unit * high == TWO64
    ensures var low := septet % high;
      && septet * unit % TWO64 == low * unit && (raw + septet * unit) % TWO64 == raw + low * unit && raw + low * unit < TWO64
  {
    var times, low := septet / high, septet % high;
    assert septet * unit == times * (unit * high) + low * unit by {
      assert septet == times * high + low;
      assert (times * high) * unit == times * (unit * high);
    }
    assert raw + low * unit < TWO64 by {
      assert (low + 1) * unit <= high * unit;
    }
    Remainder(low * unit, times);
    Remainder(raw + low * unit, times);
  }

  lemma Remainder(rest: nat, times: nat)
    requires rest < TWO64
    ensures (times * TWO64 + rest) % TWO64 == rest
  {
  }

  lemma OrBelow64(raw: nat, septet: nat, shift: nat)
    requires raw < Pow2(shift) && shift < 64
    ensures Int64(Wrap(raw)) && Unsigned(Wrap(raw)) == raw
    ensures OrShifted(Wrap(raw), septet, shift) == Wrap(raw + septet * Pow2(shift))
  {
    hide Pow2, Or;
    Pow2Of64();
    Pow2Grows(shift, 64);
    Pow2Grows(0, 64 - shift);
    Pow2Sum(shift, 64 - shift);
    OrIsSum(raw, septet % Pow2(64 - shift), shift);
    OrOfCut(raw, septet, Pow2(shift), Pow2(64 - shift));
  }

  lemma OrOfCut(raw: nat, septet: nat, unit: nat, high: nat)
    requires raw < unit <= TWO64 && 0 < high && unit * high == TWO64
    requires Or(raw, septet % high * unit) == raw + septet % high * unit
    ensures Int64(Wrap(raw)) && Unsigned(Wrap(raw)) == raw
    ensures Signed(Or(Unsigned(Wrap(raw)), septet * unit % TWO64)) == Wrap(raw + septet * unit)
  {
    hide Or;
    CutSeptet(raw, septet, unit, high);
  }

  lemma OrBeyond64(raw: nat, septet: nat, shift: nat)
    requires shift >= 64
    ensures Int64(Wrap(raw)) && Wrap(raw + septet * Pow2(shift)) == Wrap(raw)
    ensures OrShifted(Wrap(raw), septet, shift) == Wrap(raw)
  {
    OrZero(Unsigned(Wrap(raw)));
    Pow2Of64();
    Pow2Sum(64, shift - 64);
    ShiftedAway(raw, septet, Pow2(shift - 64));
  }

  /** One septet more: what `|=` does on 64 bits is what adding does on the unbounded number. */
  lemma OrIsAddition(raw: nat, septet: nat, shift: nat)
    requires raw < Pow2(shift) && septet < 128
    ensures Int64(Wrap(raw))
    ensures OrShifted(Wrap(raw), septet, shift) == Wrap(raw + septet * Pow2(shift))
    ensures raw + septet * Pow2(shift) < Pow2(shift + 7) == 128 * Pow2(shift)
  {
    hide Wrap, Pow2, Unsigned, Int64, OrShifted;
    Pow2Of64();
    Pow2Sum(7, shift);
    if shift < 64 {
      OrBelow64(raw, septet, shift);
    } else {
      OrBeyond64(raw, septet, shift);
    }
    SeptetFits(raw, septet, Pow2(shift));
  }

  lemma SeptetFits(raw: nat, septet: nat, unit: nat)
    requires raw < unit && septet < 128
    ensures raw + septet * unit < 128 * unit
  {
    assert septet * unit <= 127 * unit;
  }

  lemma NextSeptet(raw: nat, unit: nat, septet: nat, more: nat)
    ensures raw + unit * (septet + 128 * more) == raw + septet * unit + (128 * unit) * more
  {
    assert unit * (septet + 128 * more) == unit * septet + unit * (128 * more);
    assert unit * (128 * more) == (128 * unit) * more;
  }

  /** The septets up to `offset` make `raw`; what they make with the rest is what the varint is. */
  ghost predicate SoFar(bytes: Bytes, start: nat, offset: nat, raw: nat, shift: nat)
  {
    && start <= offset && raw < Pow2(shift)
    && match Septets(bytes, offset)
       case Bad => Septets(bytes, start) == Bad
       case Got(more, next) => Septets(bytes, start) == Got(raw + Pow2(shift) * more, next)
  }

  lemma SeptetsAt(bytes: Bytes, i: nat)
    requires i < |bytes|
    ensures bytes[i] < 128 ==> Septets(bytes, i) == Got(bytes[i] % 128, i + 1)
    ensures bytes[i] >= 128 ==>
      match Septets(bytes, i + 1)
      case Bad => Septets(bytes, i) == Bad
      case Got(more, next) => Septets(bytes, i) == Got(bytes[i] % 128 + 128 * more, next)
  {
  }

  lemma SeptetMore(bytes: Bytes, start: nat, offset: nat, raw: nat, shift: nat)
    requires SoFar(bytes, start, offset, raw, shift) && offset < |bytes|
    ensures var sum := raw + bytes[offset] % 128 * Pow2(shift);
      if bytes[offset] < 128 then Septets(bytes, start) == Got(sum, offset + 1) else SoFar(bytes, start, offset + 1, sum, shift + 7)
  {
    hide Pow2, OrShifted, Wrap, Septets;
    OrIsAddition(raw, bytes[offset] % 128, shift);
    SeptetsAt(bytes, offset);
    match Septets(bytes, offset + 1) {
      case Bad =>
      case Got(more, _) => NextSeptet(raw, Pow2(shift), bytes[offset] % 128, more);
    }
  }

  lemma SeptetEnd(bytes: Bytes, start: nat, offset: nat, raw: nat, shift: nat)
    requires SoFar(bytes, start, offset, raw, shift) && offset >= |bytes|
    ensures Septets(bytes, start) == Bad
  {
  }

  lemma SeptetStart(bytes: Bytes, start: nat)
    ensures SoFar(bytes, start, start, 0, 0)
  {
  }

  lemma SoFarBounds(bytes: Bytes, start: nat, offset: nat, raw: nat, shift: nat)
    requires SoFar(bytes, start, offset, raw, shift)
    ensures start <= offset && raw < Pow2(shift)
  {
  }

  method ReadVarintAt(bytes: Bytes, start: nat) returns (r: Read<int>)
    ensures r == ReadVarint(bytes, start)
  {
    hide SoFar, Septets, OrShifted, Pow2, Wrap;
    var value, shift, offset := 0, 0, start;
    ghost var raw: nat := 0;
    SeptetStart(bytes, start);
    assert value == Wrap(raw) by { WrapZero(); }
    while true
      invariant SoFar(bytes, start, offset, raw, shift) && value == Wrap(raw)
      decreases |bytes| - offset
    {
      if offset >= |bytes| {
        SeptetEnd(bytes, start, offset, raw, shift);
        return Bad;
      }
      var byte := bytes[offset];
      SoFarBounds(bytes, start, offset, raw, shift);
      OrIsAddition(raw, byte % 128, shift);
      SeptetMore(bytes, start, offset, raw, shift);
      value := OrShifted(value, byte % 128, shift);
      raw := raw + byte % 128 * Pow2(shift);
      offset := offset + 1;
      shift := shift + 7;
      if byte < 128 {
        return Got(value, offset);
      }
    }
  }

  lemma WrapZero()
    ensures Wrap(0) == 0
  {
  }

  // ---------------------------------------------------------------- fields

  datatype Value = Int(n: int) | Bool(on: bool) | Str(bytes: Bytes)

  /** In the order of the PHP array: a field number and its values. */
  type Fields = seq<(int, seq<Value>)>

  predicate Representable(v: Value)
  {
    match v
    case Int(i) => Int64(i)
    case Bool(_) => true
    case Str(b) => |b| < TWO63
  }

  predicate WellTyped(fields: Fields)
  {
    forall k :: 0 <= k < |fields| ==> Int64(fields[k].0) && forall j :: 0 <= j < |fields[k].1| ==> Representable(fields[k].1[j])
  }

  /** `($no << 3) | $wire`. */
  function Key(no: int, wire: nat): int
  {
    Wrap(no * 8) + wire
  }

  /** The field number that comes back: the shift drops the top three bits. */
  function Stored(no: int): int
  {
    Wrap(no * 8) / 8
  }

  lemma KeyParts(no: int, wire: nat)
    requires wire < 8
    ensures Int64(Key(no, wire)) && Key(no, wire) % 8 == wire && Key(no, wire) / 8 == Stored(no)
  {
    assert (no * 8) % TWO64 == 8 * (no % (TWO64 / 8)) by {
      EightTimes(no);
    }
  }

  lemma EightTimes(no: int)
    ensures (no * 8) % TWO64 == 8 * (no % (TWO64 / 8))
  {
    var q, r := no / (TWO64 / 8), no % (TWO64 / 8);
    assert no == q * (TWO64 / 8) + r;
    assert no * 8 == q * TWO64 + 8 * r;
  }

  /** A field number survives exactly if it fits in 61 bits. */
  lemma FieldNumberSurvives(no: int)
    requires Int64(no)
    ensures Stored(no) == no <==> -TWO60 <= no < TWO60
  {
    EightTimes(no);
  }

  /** What `decode` gives back for a value. */
  function Normal(v: Value): Value
  {
    match v
    case Bool(b) => Int(if b then 1 else 0)
    case _ => v
  }

  function EncodeValue(no: int, v: Value): Bytes
  {
    match v
    case Str(b) => Base128(Natural(Key(no, 2))) + Base128(|b|) + b
    case _ => Base128(Natural(Key(no, 0))) + Base128(Natural(Normal(v).n))
  }

  function Natural(v: int): nat
  {
    if Int64(v) then Unsigned(v) else 0
  }

  function EncodeValues(no: int, vs: seq<Value>): Bytes
  {
    if vs == [] then [] else EncodeValues(no, vs[..|vs| - 1]) + EncodeValue(no, vs[|vs| - 1])
  }

  function Encoded(fields: Fields): Bytes
  {
    if fields == [] then [] else Encoded(fields[..|fields| - 1]) + EncodeValues(fields[|fields| - 1].0, fields[|fields| - 1].1)
  }

  method EncodeOne(no: int, v: Value) returns (b: Bytes)
    requires Int64(no) && Representable(v)
    ensures b == EncodeValue(no, v)
  {
    hide Base128;
    KeyParts(no, 0);
    KeyParts(no, 2);
    var key, rest;
    match v {
      case Int(i) =>
        key := Varint(Key(no, 0));
        rest := Varint(i);
      case Bool(on) =>
        key := Varint(Key(no, 0));
        rest := Varint(if on then 1 else 0);
      case Str(bytes) =>
        key := Varint(Key(no, 2));
        rest := Varint(|bytes|);
        key := key + rest;
        rest := bytes;
    }
    b := key + rest;
  }

  method Encode(fields: Fields) returns (out: Bytes)
    requires WellTyped(fields)
    ensures out == Encoded(fields)
  {
    hide EncodeValue;
    out := [];
    for k := 0 to |fields|
      invariant out == Encoded(fields[..k])
    {
      var (no, values) := fields[k];
      ghost var before := out;
      for j := 0 to |values|
        invariant out == before + EncodeValues(no, values[..j])
      {
        assert values[..j + 1][..j] == values[..j];
        assert Representable(fields[k].1[j]);
        var b := EncodeOne(no, values[j]);
        Associates(before, EncodeValues(no, values[..j]), b);
        out := out + b;
      }
      assert values[..|values|] == values && fields[..k + 1][..k] == fields[..k];
    }
    assert fields[..|fields|] == fields;
  }

  function ReadBytes(bytes: Bytes, i: nat, length: int): (r: Read<Bytes>)
    ensures r.Got? ==> i <= r.next <= |bytes| && r.value == bytes[i..r.next]
  {
    if length < 0 || i + length > |bytes| then Bad else Got(bytes[i..i + length], i + length)
  }

  /** The value after a key, by wire type; 3, 4, 6 and 7 are refused. */
  function ReadValue(bytes: Bytes, i: nat, wire: int): (r: Read<Value>)
    ensures r.Got? ==> i <= r.next <= |bytes|
  {
    if wire == 0 then
      match ReadVarint(bytes, i)
      case Bad => Bad
      case Got(v, next) => Got(Int(v), next)
    else if wire == 2 then
      match ReadVarint(bytes, i)
      case Bad => Bad
      case Got(length, next) => AsStr(ReadBytes(bytes, next, length))
    else if wire == 1 then AsStr(ReadBytes(bytes, i, 8))
    else if wire == 5 then AsStr(ReadBytes(bytes, i, 4))
    else Bad
  }

  function AsStr(r: Read<Bytes>): Read<Value>
  {
    match r
    case Bad => Bad
    case Got(b, next) => Got(Str(b), next)
  }

  datatype Decoded = Message(fields: map<int, Value>) | Refused

  /** A key and its value. */
  function ReadField(bytes: Bytes, i: nat): (r: Read<(int, Value)>)
    ensures r.Got? ==> i < r.next <= |bytes|
  {
    match ReadVarint(bytes, i)
    case Bad => Bad
    case Got(key, j) =>
      match ReadValue(bytes, j, key % 8)
      case Bad => Bad
      case Got(v, next) => Got((key / 8, v), next)
  }

  function DecodeFrom(bytes: Bytes, i: nat, out: map<int, Value>): Decoded
    decreases |bytes| - i
  {
    if i >= |bytes| then Message(out)
    else
      match ReadField(bytes, i)
      case Bad => Refused
      case Got((no, v), next) => DecodeFrom(bytes, next, out[no := v])
  }

  /** Reads to the end or refuses, each field strictly after the last, never past the end. */
  method Decode(bytes: Bytes) returns (r: Decoded)
    ensures r == DecodeFrom(bytes, 0, map[])
  {
    var out: map<int, Value>, i: nat := map[], 0;
    while i < |bytes|
      invariant i <= |bytes| && DecodeFrom(bytes, i, out) == DecodeFrom(bytes, 0, map[])
      decreases |bytes| - i
    {
      var key := ReadVarintAt(bytes, i);
      if key.Bad? {
        return Refused;
      }
      var no, value := key.value / 8, Bad;
      match key.value % 8 {
        case 0 =>
          var v := ReadVarintAt(bytes, key.next);
          value := if v.Bad? then Bad else Got(Int(v.value), v.next);
        case 2 =>
          var length := ReadVarintAt(bytes, key.next);
          value := if length.Bad? then Bad else AsStr(ReadBytes(bytes, length.next, length.value));
        case 1 => value := AsStr(ReadBytes(bytes, key.next, 8));
        case 5 => value := AsStr(ReadBytes(bytes, key.next, 4));
        case _ =>
      }
      if value.Bad? {
        return Refused;
      }
      out := out[no := value.value];
      i := value.next;
    }
    return Message(out);
  }

  // ---------------------------------------------------------------- round trip and merging

  /** Reading a field looks at nothing before it or behind it. */
  lemma {:induction false} SeptetsInside(pre: Bytes, bytes: Bytes, post: Bytes, i: nat)
    ensures match Septets(bytes, i)
            case Got(u, next) => Septets(pre + bytes + post, |pre| + i) == Got(u, |pre| + next)
            case Bad => post == [] ==> Septets(pre + bytes + post, |pre| + i) == Bad
    decreases |bytes| - i
  {
    if i < |bytes| {
      assert (pre + bytes + post)[|pre| + i] == bytes[i];
      SeptetsInside(pre, bytes, post, i + 1);
    }
  }

  lemma SliceInside(pre: Bytes, bytes: Bytes, post: Bytes, i: nat, length: int)
    ensures match ReadBytes(bytes, i, length)
            case Got(b, next) => ReadBytes(pre + bytes + post, |pre| + i, length) == Got(b, |pre| + next)
            case Bad => post == [] ==> ReadBytes(pre + bytes + post, |pre| + i, length) == Bad
  {
    if 0 <= length && i + length <= |bytes| {
      assert (pre + bytes + post)[|pre| + i..|pre| + i + length] == bytes[i..i + length];
    }
  }

  lemma ValueInside(pre: Bytes, bytes: Bytes, post: Bytes, i: nat, wire: int)
    ensures match ReadValue(bytes, i, wire)
            case Got(v, next) => ReadValue(pre + bytes + post, |pre| + i, wire) == Got(v, |pre| + next)
            case Bad => post == [] ==> ReadValue(pre + bytes + post, |pre| + i, wire) == Bad
  {
    hide Septets, ReadBytes, Wrap;
    SeptetsInside(pre, bytes, post, i);
    SliceInside(pre, bytes, post, i, 8);
    SliceInside(pre, bytes, post, i, 4);
    var length := ReadVarint(bytes, i);
    if length.Got? {
      SliceInside(pre, bytes, post, length.next, length.value);
    }
  }

  lemma FieldInside(pre: Bytes, bytes: Bytes, post: Bytes, i: nat)
    ensures match ReadField(bytes, i)
            case Got(f, next) => ReadField(pre + bytes + post, |pre| + i) == Got(f, |pre| + next)
            case Bad => post == [] ==> ReadField(pre + bytes + post, |pre| + i) == Bad
  {
    hide Septets, ReadValue, Wrap;
    SeptetsInside(pre, bytes, post, i);
    var key := ReadVarint(bytes, i);
    if key.Got? {
      ValueInside(pre, bytes, post, key.next, key.value % 8);
    }
  }

  /** Decoding two messages on end decodes the first and goes on with the second. */
  lemma {:induction false} DecodeThrough(a: Bytes, b: Bytes, i: nat, out: map<int, Value>)
    requires i <= |a| && DecodeFrom(a, i, out).Message?
    ensures DecodeFrom(a + b, i, out) == DecodeFrom(b, 0, DecodeFrom(a, i, out).fields)
    decreases |a| - i
  {
    hide ReadField;
    if i == |a| {
      DecodeShifted(a, b, 0, out);
    } else {
      FieldInside([], a, b, i);
      assert [] + a + b == a + b;
      var f := ReadField(a, i);
      DecodeThrough(a, b, f.next, out[f.value.0 := f.value.1]);
    }
  }

  lemma {:induction false} DecodeShifted(a: Bytes, b: Bytes, i: nat, out: map<int, Value>)
    requires i <= |b|
    ensures DecodeFrom(a + b, |a| + i, out) == DecodeFrom(b, i, out)
    decreases |b| - i
  {
    hide ReadField;
    if i < |b| {
      FieldInside(a, b, [], i);
      assert a + b + [] == a + b;
      var f := ReadField(b, i);
      if f.Got? {
        DecodeShifted(a, b, f.next, out[f.value.0 := f.value.1]);
      }
    }
  }

  lemma {:induction false} StartingWith(b: Bytes, i: nat, out: map<int, Value>, more: map<int, Value>)
    requires i <= |b|
    ensures match DecodeFrom(b, i, more)
            case Message(m) => DecodeFrom(b, i, out + more) == Message(out + m)
            case Refused => DecodeFrom(b, i, out + more) == Refused
    decreases |b| - i
  {
    hide ReadField;
    if i < |b| {
      var f := ReadField(b, i);
      if f.Got? {
        StartingWith(b, f.next, out, more[f.value.0 := f.value.1]);
        assert out + more[f.value.0 := f.value.1] == (out + more)[f.value.0 := f.value.1];
      }
    }
  }

  /** Messages written one after the other merge: the later one's fields win, and either refusal refuses both. */
  lemma ConcatenationMerges(a: Bytes, b: Bytes)
    requires DecodeFrom(a, 0, map[]).Message?
    ensures match DecodeFrom(b, 0, map[])
            case Message(m) => DecodeFrom(a + b, 0, map[]) == Message(DecodeFrom(a, 0, map[]).fields + m)
            case Refused => DecodeFrom(a + b, 0, map[]) == Refused
  {
    DecodeThrough(a, b, 0, map[]);
    var first := DecodeFrom(a, 0, map[]).fields;
    StartingWith(b, 0, first, map[]);
    assert first + map[] == first;
  }

  lemma NumberRead(no: int, v: Value)
    requires Int64(no) && Representable(v) && !v.Str?
    ensures ReadField(EncodeValue(no, v), 0) == Got((Stored(no), Normal(v)), |EncodeValue(no, v)|)
  {
    hide Base128, ReadVarint, Wrap;
    KeyParts(no, 0);
    var key, value := Base128(Unsigned(Key(no, 0))), Base128(Unsigned(Normal(v).n));
    var e := EncodeValue(no, v);
    assert e == [] + key + value && e == key + value + [];
    VarintRoundTrip([], Key(no, 0), value);
    VarintRoundTrip(key, Normal(v).n, []);
  }

  lemma StringRead(no: int, b: Bytes)
    requires Int64(no) && |b| < TWO63
    ensures ReadField(EncodeValue(no, Str(b)), 0) == Got((Stored(no), Str(b)), |EncodeValue(no, Str(b))|)
  {
    hide Base128, ReadVarint, Wrap;
    KeyParts(no, 2);
    var key, length := Base128(Unsigned(Key(no, 2))), Base128(|b|);
    var e := EncodeValue(no, Str(b));
    assert e == [] + key + (length + b) && e == key + length + b;
    VarintRoundTrip([], Key(no, 2), length + b);
    VarintRoundTrip(key, |b|, b);
    assert e[|key| + |length|..|e|] == b;
  }

  lemma ValueRoundTrip(no: int, v: Value)
    requires Int64(no) && Representable(v)
    ensures DecodeFrom(EncodeValue(no, v), 0, map[]) == Message(map[Stored(no) := Normal(v)])
  {
    hide ReadField, EncodeValue, Stored;
    if v.Str? {
      StringRead(no, v.bytes);
    } else {
      NumberRead(no, v);
    }
    assert map[][Stored(no) := Normal(v)] == map[Stored(no) := Normal(v)];
  }

  /** The last value of each field number, as `decode` names and types them. */
  function LastValues(fields: Fields): map<int, Value>
  {
    if fields == [] then map[]
    else
      var (no, vs) := fields[|fields| - 1];
      LastValues(fields[..|fields| - 1]) + if vs == [] then map[] else map[Stored(no) := Normal(vs[|vs| - 1])]
  }

  lemma {:induction false} ValuesRoundTrip(no: int, vs: seq<Value>)
    requires Int64(no) && forall j :: 0 <= j < |vs| ==> Representable(vs[j])
    ensures DecodeFrom(EncodeValues(no, vs), 0, map[]) == Message(if vs == [] then map[] else map[Stored(no) := Normal(vs[|vs| - 1])])
  {
    if vs != [] {
      ValuesRoundTrip(no, vs[..|vs| - 1]);
      ValueRoundTrip(no, vs[|vs| - 1]);
      ConcatenationMerges(EncodeValues(no, vs[..|vs| - 1]), EncodeValue(no, vs[|vs| - 1]));
    }
  }

  /** Decoding what was encoded gives the last value per field number, for all fields the codec can be given. */
  lemma {:induction false} MessageRoundTrip(fields: Fields)
    requires WellTyped(fields)
    ensures DecodeFrom(Encoded(fields), 0, map[]) == Message(LastValues(fields))
  {
    if fields != [] {
      var front := fields[..|fields| - 1];
      var (no, vs) := fields[|fields| - 1];
      MessageRoundTrip(front);
      assert forall j :: 0 <= j < |vs| ==> Representable(vs[j]) by {
        assert vs == fields[|fields| - 1].1;
      }
      ValuesRoundTrip(no, vs);
      ConcatenationMerges(Encoded(front), EncodeValues(no, vs));
    }
  }

  lemma CutPayload(no: int, b: Bytes, k: nat)
    requires Int64(no) && k < |b| < TWO63
    ensures ReadField(Base128(Natural(Key(no, 2))) + Base128(|b|) + b[..k], 0) == Bad
  {
    hide Base128, ReadVarint, Wrap;
    KeyParts(no, 2);
    var key, length := Base128(Unsigned(Key(no, 2))), Base128(|b|);
    var cut := key + length + b[..k];
    assert cut == [] + key + (length + b[..k]);
    VarintRoundTrip([], Key(no, 2), length + b[..k]);
    VarintRoundTrip(key, |b|, b[..k]);
  }

  /** The number after a key, a value or a length, cut short. */
  lemma CutNumber(no: int, wire: nat, u: nat, k: nat)
    requires Int64(no) && (wire == 0 || wire == 2) && k < |Base128(u)|
    ensures ReadField(Base128(Natural(Key(no, wire))) + Base128(u)[..k], 0) == Bad
  {
    hide Base128, Septets, Wrap;
    KeyParts(no, wire);
    var key := Base128(Unsigned(Key(no, wire)));
    var cut := key + Base128(u)[..k];
    assert cut == [] + key + Base128(u)[..k];
    VarintRoundTrip([], Key(no, wire), Base128(u)[..k]);
    CutVarintIsRefused(key, u, k);
  }

  lemma CutKey(u: nat, k: nat)
    requires k < |Base128(u)|
    ensures ReadField(Base128(u)[..k], 0) == Bad
  {
    hide Base128, Septets;
    CutVarintIsRefused([], u, k);
    assert [] + Base128(u)[..k] == Base128(u)[..k];
  }

  /** A field cut short anywhere is refused. */
  lemma CutFieldIsRefused(no: int, v: Value, k: nat)
    requires Int64(no) && Representable(v) && 0 < k < |EncodeValue(no, v)|
    ensures DecodeFrom(EncodeValue(no, v)[..k], 0, map[]) == Refused
  {
    hide ReadField, Base128, Key, Wrap;
    var wire := if v.Str? then 2 else 0;
    var key, second := Base128(Natural(Key(no, wire))), Base128(if v.Str? then |v.bytes| else Natural(Normal(v).n));
    var cut := EncodeValue(no, v)[..k];
    if k < |key| {
      CutKey(Natural(Key(no, wire)), k);
      assert cut == key[..k];
    } else if k < |key| + |second| {
      CutNumber(no, wire, if v.Str? then |v.bytes| else Natural(Normal(v).n), k - |key|);
      assert cut == key + second[..k - |key|];
    } else {
      CutPayload(no, v.bytes, k - |key| - |second|);
      assert cut == key + second + v.bytes[..k - |key| - |second|];
    }
  }
}
