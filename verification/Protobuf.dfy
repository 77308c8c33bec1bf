/** The hand-written protobuf reader of the App Bundle code, and the encoder it has to
    undo (Protocol Buffers Encoding, sections "Base 128 Varints" and "Message Structure"). */
module Protobuf {
  import opened Wrappers
  import opened Text

  const TWO64: nat := 0x1_0000_0000_0000_0000

  datatype Result<+T> = Ok(value: T) | Err

  // ── Varints ─────────────────────────────────────────────────────

  /** The weight of a varint's byte `i`. */
  function Weight(i: nat): nat {
    if i == 0 then 1 else 128 * Weight(i - 1)
  }

  /** What byte `i` adds: its low seven bits, shifted, in 64 bits. */
  function Part(b: byte, i: nat): nat {
    b as nat % 128 * Weight(i) % TWO64
  }

  /** A value and the bytes it took. */
  datatype Read = Read(value: nat, used: nat)

  /** A varint's byte `i` and the rest, of at most ten bytes; the tenth keeps one bit. */
  function DecodeVarint(bytes: seq<byte>, i: nat): (r: Result<Read>)
    requires i <= 10
    ensures r.Ok? ==> 1 <= r.value.used <= |bytes|
    decreases 10 - i
  {
    if i == 10 || bytes == [] then Err
    else
      var part := Part(bytes[0], i);
      if bytes[0] < 128 then Ok(Read(part, 1))
      else
        var rest := DecodeVarint(bytes[1..], i + 1);
        if rest.Err? then Err else Ok(Read(part + rest.value.value, 1 + rest.value.used))
  }

  function EncodeVarint(value: nat): (bytes: seq<byte>)
    ensures bytes != []
  {
    if value < 128 then [value as byte] else [(value % 128 + 128) as byte] + EncodeVarint(value / 128)
  }

  lemma WeightOfTen()
    ensures Weight(9) == 0x8000_0000_0000_0000
  {
    assert Weight(1) == 128;
    assert Weight(2) == 128 * 128;
    assert Weight(3) == 128 * 128 * 128;
    assert Weight(4) == 0x1000_0000;
    assert Weight(5) == 0x8_0000_0000;
    assert Weight(6) == 0x400_0000_0000;
    assert Weight(7) == 0x2_0000_0000_0000;
    assert Weight(8) == 0x100_0000_0000_0000;
  }

  lemma {:induction false} WeightGrows(i: nat, j: nat)
    requires i <= j
    ensures 1 <= Weight(i) <= Weight(j)
    decreases j
  {
    if j > 0 {
      WeightGrows(if i == j then i - 1 else i, j - 1);
    }
  }

  /** A value is its last digit and the digits before it. */
  lemma SplitDigit(value: nat, weight: nat)
    ensures value * weight == value % 128 * weight + value / 128 * (128 * weight)
  {
    var high, low := value / 128, value % 128;
    assert value == 128 * high + low;
    assert (128 * high + low) * weight == 128 * high * weight + low * weight;
    assert 128 * high * weight == high * (128 * weight);
  }

  lemma SmallPart(b: byte, i: nat)
    requires b as nat % 128 * Weight(i) < TWO64
    ensures Part(b, i) == b as nat % 128 * Weight(i)
  {
    hide Weight;
    assert b as nat % 128 * Weight(i) >= 0;
  }

  lemma NotPastTheTop(value: nat)
    requires value >= 128
    ensures value * Weight(9) >= TWO64
  {
    hide Weight;
    WeightOfTen();
  }

  lemma Monotone(a: nat, b: nat, weight: nat)
    requires a <= b
    ensures a * weight <= b * weight
  {
  }

  /** Every value below 2^64 reads back, whatever follows it. */
  lemma {:induction false} VarintRoundTrip(value: nat, i: nat, rest: seq<byte>)
    requires i < 10 && value * Weight(i) < TWO64
    ensures DecodeVarint(EncodeVarint(value) + rest, i) == Ok(Read(value * Weight(i), |EncodeVarint(value)|))
    decreases value
  {
    hide Part;
    var bytes := EncodeVarint(value) + rest;
    var digit := value % 128;
    assert bytes[0] as nat % 128 == digit;
    Monotone(digit, value, Weight(i));
    SmallPart(bytes[0], i);
    if value >= 128 {
      if i == 9 {
        NotPastTheTop(value);
        assert false;
      }
      SplitDigit(value, Weight(i));
      assert value / 128 * Weight(i + 1) == value / 128 * (128 * Weight(i));
      assert bytes[1..] == EncodeVarint(value / 128) + rest;
      VarintRoundTrip(value / 128, i + 1, rest);
    }
  }

  lemma PartBound(b: byte, i: nat)
    requires i <= 9
    ensures i < 9 ==> Part(b, i) <= 127 * Weight(i)
    ensures i == 9 ==> Part(b, i) <= Weight(9) && Weight(9) + Weight(9) == TWO64
  {
    hide Weight;
    var digit := b as nat % 128;
    WeightOfTen();
    WeightGrows(i, 9);
    if i == 9 {
      assert digit * Weight(9) == digit / 2 * TWO64 + digit % 2 * Weight(9);
      assert digit * Weight(9) % TWO64 == digit % 2 * Weight(9);
    } else {
      Monotone(digit, 127, Weight(i));
      ModLess(digit * Weight(i));
    }
  }

  lemma ModLess(x: nat)
    ensures x % TWO64 <= x
  {
  }

  /** The value of a varint stays in 64 bits. */
  lemma {:induction false} VarintFits(bytes: seq<byte>, i: nat)
    requires i <= 9 && DecodeVarint(bytes, i).Ok?
    ensures DecodeVarint(bytes, i).value.value + Weight(i) <= TWO64
    decreases 10 - i
  {
    hide Part;
    PartBound(bytes[0], i);
    if i < 9 {
      WeightOfTen();
      WeightGrows(i + 1, 9);
      if bytes[0] >= 128 {
        VarintFits(bytes[1..], i + 1);
      }
    }
  }

  // ── `|=` ────────────────────────────────────────────────────────

  /** Bitwise or. */
  function Or(a: nat, b: nat): nat
    decreases a + b
  {
    if a == 0 && b == 0 then 0
    else 2 * Or(a / 2, b / 2) + (if a % 2 == 1 || b % 2 == 1 then 1 else 0)
  }

  function Pow2(k: nat): nat {
    if k == 0 then 1 else 2 * Pow2(k - 1)
  }

  lemma {:induction false} OrZero(b: nat)
    ensures Or(0, b) == b
  {
    if b > 0 {
      OrZero(b / 2);
    }
  }

  /** Bits below the k-th and bits from it on are added by `|`. */
  lemma {:induction false} OrApart(a: nat, q: nat, k: nat)
    requires a < Pow2(k)
    ensures Or(a, q * Pow2(k)) == a + q * Pow2(k)
    decreases k
  {
    if k == 0 {
      OrZero(q);
    } else {
      var half := q * Pow2(k - 1);
      HalfOf(q, Pow2(k - 1));
      OrApart(a / 2, q, k - 1);
      if a == 0 && half == 0 {
        OrZero(0);
      }
    }
  }

  lemma HalfOf(q: nat, p: nat)
    ensures q * (2 * p) == 2 * (q * p) && q * (2 * p) / 2 == q * p && q * (2 * p) % 2 == 0
  {
  }

  lemma {:induction false} WeightIsPow2(i: nat)
    ensures Weight(i) == Pow2(7 * i)
  {
    if i > 0 {
      WeightIsPow2(i - 1);
      var k := 7 * (i - 1);
      assert Pow2(k + 7) == 2 * Pow2(k + 6) == 4 * Pow2(k + 5) == 8 * Pow2(k + 4);
      assert Pow2(k + 4) == 2 * Pow2(k + 3) == 4 * Pow2(k + 2) == 8 * Pow2(k + 1) == 16 * Pow2(k);
    }
  }

  /** A part is a multiple of its weight, and with what came before below the next. */
  lemma PartIsMultiple(b: byte, i: nat) returns (q: nat)
    requires i <= 9
    ensures Part(b, i) == q * Weight(i) && (i < 9 ==> q <= 127)
  {
    hide Weight;
    var digit := b as nat % 128;
    WeightOfTen();
    if i == 9 {
      q := digit % 2;
      assert digit * Weight(9) == digit / 2 * TWO64 + digit % 2 * Weight(9);
      assert digit * Weight(9) % TWO64 == digit % 2 * Weight(9);
    } else {
      q := digit;
      WeightGrows(i + 1, 9);
      Monotone(digit, 127, Weight(i));
      WeightStep(i);
      SmallPart(b, i);
    }
  }

  lemma WeightStep(i: nat)
    ensures Weight(i + 1) == 128 * Weight(i) && Weight(i) >= 1
  {
    WeightGrows(i, i);
  }

  /** In the reading loop `|=` adds: the parts never overlap. */
  lemma OrAdds(value: nat, b: byte, i: nat)
    requires i <= 9 && value < Weight(i)
    ensures Or(value, Part(b, i)) == value + Part(b, i)
    ensures i < 9 ==> value + Part(b, i) < Weight(i + 1)
  {
    hide Weight, Part, Or, Pow2;
    var q := PartIsMultiple(b, i);
    WeightIsPow2(i);
    OrApart(value, q, 7 * i);
    if i < 9 {
      WeightStep(i);
      Monotone(q, 127, Weight(i));
    }
  }

  ghost function Continued(value: nat, used: nat, left: Result<Read>): Result<Read> {
    if left.Err? then Err else Ok(Read(value + left.value.value, used + left.value.used))
  }

  /** One turn of the reading loop. */
  lemma VarintStep(bytes: seq<byte>, at: nat, i: nat)
    requires at <= |bytes| && i <= 10
    ensures DecodeVarint(bytes[at..], i) ==
      if i == 10 || at == |bytes| then Err
      else if bytes[at] < 128 then Ok(Read(Part(bytes[at], i), 1))
      else Continued(Part(bytes[at], i), 1, DecodeVarint(bytes[at + 1..], i + 1))
  {
    hide Part;
    if at < |bytes| {
      assert bytes[at..][1..] == bytes[at + 1..];
    }
  }

  lemma FirstWeight()
    ensures Weight(0) == 1
  {
  }

  /** `read_varint`: reads at the cursor and moves it past what it read. */
  method ReadVarint(bytes: seq<byte>, cursor: nat) returns (r: Result<nat>, now: nat)
    requires cursor <= |bytes|
    ensures cursor <= now <= |bytes|
    ensures var read := DecodeVarint(bytes[cursor..], 0);
      if read.Err? then r.Err? else r == Ok(read.value.value) && now == cursor + read.value.used
  {
    hide Part, DecodeVarint, Or, Weight;
    var value: nat := 0;
    assert Weight(0) == 1 by {
      FirstWeight();
    }
    now := cursor;
    var i := 0;
    while i < 10
      invariant 0 <= i <= 10 && cursor <= now <= |bytes|
      invariant now == cursor + i && (i <= 9 ==> value < Weight(i))
      invariant DecodeVarint(bytes[cursor..], 0) == Continued(value, i, DecodeVarint(bytes[now..], i))
    {
      VarintStep(bytes, now, i);
      if now == |bytes| {
        return Err, now;
      }
      var b := bytes[now];
      now := now + 1;
      OrAdds(value, b, i);
      value := Or(value, Part(b, i));
      i := i + 1;
      if b < 128 {
        return Ok(value), now;
      }
    }
    VarintStep(bytes, now, i);
    r := Err;
  }

  // ── Fields ──────────────────────────────────────────────────────

  datatype Value = Varint(n: nat) | Bytes(payload: seq<byte>) | Fixed

  datatype Field = Field(number: nat, value: Value)

  /** A field and the bytes after it; none when there are no bytes left. */
  datatype NextField = End | Next(field: Field, rest: seq<byte>)

  function DecodeField(bytes: seq<byte>): (r: Result<NextField>)
    ensures r.Ok? && r.value.Next? ==> |r.value.rest| < |bytes|
    ensures r.Ok? ==> (r.value.End? <==> bytes == [])
  {
    if bytes == [] then Ok(End)
    else
      var key := DecodeVarint(bytes, 0);
      if key.Err? then Err
      else DecodeValue(bytes, key.value.used, key.value.value / 8, key.value.value % 8)
  }

  /** A field's value by its wire type, from a cursor on. */
  function DecodeValue(bytes: seq<byte>, cursor: nat, number: nat, kind: nat): (r: Result<NextField>)
    requires cursor <= |bytes|
    ensures r.Ok? ==> r.value.Next? && |r.value.rest| <= |bytes| - cursor
  {
    if kind == 0 then
      var read := DecodeVarint(bytes[cursor..], 0);
      if read.Err? then Err else Ok(Next(Field(number, Varint(read.value.value)), bytes[cursor + read.value.used..]))
    else if kind == 1 then
      if |bytes| < cursor + 8 then Err else Ok(Next(Field(number, Fixed), bytes[cursor + 8..]))
    else if kind == 2 then
      var size := DecodeVarint(bytes[cursor..], 0);
      if size.Err? then Err
      else
        var from := cursor + size.value.used;
        if |bytes| < from + size.value.value then Err
        else Ok(Next(Field(number, Bytes(bytes[from..from + size.value.value])), bytes[from + size.value.value..]))
    else if kind == 5 then
      if |bytes| < cursor + 4 then Err else Ok(Next(Field(number, Fixed), bytes[cursor + 4..]))
    else Err
  }

  /** `Fields`: a message's bytes, shortened field by field. */
  class Fields {
    var bytes: seq<byte>

    constructor (bytes: seq<byte>)
      ensures this.bytes == bytes
    {
      this.bytes := bytes;
    }

    /** `next_field`: every field takes at least one byte, so loops over them end. */
    method NextField() returns (r: Result<NextField>)
      modifies this
      ensures r == DecodeField(old(bytes))
      ensures r.Ok? && r.value.Next? ==> bytes == r.value.rest && |bytes| < |old(bytes)|
      ensures r.Err? || r.value.End? ==> bytes == old(bytes)
    {
      hide DecodeVarint;
      if bytes == [] {
        return Ok(End);
      }
      var key, cursor := ReadVarint(bytes, 0);
      assert bytes[0..] == bytes;
      if key.Err? {
        return Err;
      }
      var kind, value := key.value % 8, Fixed;
      if kind == 0 {
        var n;
        n, cursor := ReadVarint(bytes, cursor);
        if n.Err? {
          return Err;
        }
        value := Varint(n.value);
      } else if kind == 1 {
        cursor := cursor + 8;
      } else if kind == 2 {
        var size;
        size, cursor := ReadVarint(bytes, cursor);
        if size.Err? || cursor + size.value > |bytes| {
          return Err;
        }
        value := Bytes(bytes[cursor..cursor + size.value]);
        cursor := cursor + size.value;
      } else if kind == 5 {
        cursor := cursor + 4;
      } else {
        return Err;
      }
      if cursor > |bytes| {
        return Err;
      }
      bytes := bytes[cursor..];
      r := Ok(Next(Field(key.value / 8, value), bytes));
    }
  }

  // ── The encoder, and back ───────────────────────────────────────

  /** A field as written; fixed fields hold eight or four bytes. */
  datatype Written =
    | VarintField(number: nat, n: nat)
    | BytesField(number: nat, payload: seq<byte>)
    | Fixed64Field(number: nat, payload: seq<byte>)
    | Fixed32Field(number: nat, payload: seq<byte>)

  predicate WellFormed(w: Written) {
    && w.number * 8 + 7 < TWO64
    && match w
       case VarintField(_, n) => n < TWO64
       case BytesField(_, payload) => |payload| < TWO64
       case Fixed64Field(_, payload) => |payload| == 8
       case Fixed32Field(_, payload) => |payload| == 4
  }

  function EncodeField(w: Written): (bytes: seq<byte>)
    ensures bytes != []
  {
    match w
    case VarintField(number, n) => EncodeVarint(number * 8) + EncodeVarint(n)
    case BytesField(number, payload) => EncodeVarint(number * 8 + 2) + (EncodeVarint(|payload|) + payload)
    case Fixed64Field(number, payload) => EncodeVarint(number * 8 + 1) + payload
    case Fixed32Field(number, payload) => EncodeVarint(number * 8 + 5) + payload
  }

  /** What a reader sees of a field. */
  function Seen(w: Written): Field {
    match w
    case VarintField(number, n) => Field(number, Varint(n))
    case BytesField(number, payload) => Field(number, Bytes(payload))
    case Fixed64Field(number, _) => Field(number, Fixed)
    case Fixed32Field(number, _) => Field(number, Fixed)
  }

  lemma VarintReads(value: nat, rest: seq<byte>)
    requires value < TWO64
    ensures DecodeVarint(EncodeVarint(value) + rest, 0) == Ok(Read(value, |EncodeVarint(value)|))
  {
    VarintRoundTrip(value, 0, rest);
  }

  lemma DropEncoded(a: seq<byte>, b: seq<byte>)
    ensures (a + b)[|a|..] == b
  {
  }

  /** A key at the front reads as number and wire type. */
  lemma KeyReads(bytes: seq<byte>, key: nat, tail: seq<byte>)
    requires key < TWO64 && bytes == EncodeVarint(key) + tail
    ensures DecodeField(bytes) == DecodeValue(bytes, |EncodeVarint(key)|, key / 8, key % 8)
    ensures bytes[|EncodeVarint(key)|..] == tail
  {
    hide DecodeVarint, EncodeVarint, DecodeValue;
    VarintReads(key, tail);
  }

  lemma PayloadReads(bytes: seq<byte>, cursor: nat, size: nat, payload: seq<byte>, rest: seq<byte>, number: nat)
    requires cursor + size <= |bytes|
    requires DecodeVarint(bytes[cursor..], 0) == Ok(Read(|payload|, size))
    requires bytes[cursor + size..] == payload + rest
    ensures DecodeValue(bytes, cursor, number, 2) == Ok(Next(Field(number, Bytes(payload)), rest))
  {
    hide DecodeVarint;
    var from := cursor + size;
    SliceOfSlice(bytes, from, |bytes|, 0, |payload|);
    SliceOfSlice(bytes, from, |bytes|, |payload|, |payload + rest|);
    assert bytes[from..|bytes|] == payload + rest;
  }

  lemma BytesRoundTrip(number: nat, payload: seq<byte>, rest: seq<byte>)
    requires WellFormed(BytesField(number, payload))
    ensures DecodeField(EncodeField(BytesField(number, payload)) + rest) == Ok(Next(Field(number, Bytes(payload)), rest))
  {
    hide DecodeVarint, EncodeVarint, DecodeField, DecodeValue;
    var bytes := EncodeField(BytesField(number, payload)) + rest;
    var key, size := EncodeVarint(number * 8 + 2), EncodeVarint(|payload|);
    var tail := size + (payload + rest);
    assert bytes == key + tail;
    KeyReads(bytes, number * 8 + 2, tail);
    VarintReads(|payload|, payload + rest);
    SliceOfSlice(bytes, |key|, |bytes|, |size|, |tail|);
    DropEncoded(size, payload + rest);
    PayloadReads(bytes, |key|, |size|, payload, rest, number);
  }

  lemma VarintRoundTripField(number: nat, n: nat, rest: seq<byte>)
    requires WellFormed(VarintField(number, n))
    ensures DecodeField(EncodeField(VarintField(number, n)) + rest) == Ok(Next(Field(number, Varint(n)), rest))
  {
    hide DecodeVarint, EncodeVarint, DecodeField;
    var bytes := EncodeField(VarintField(number, n)) + rest;
    var key, value := EncodeVarint(number * 8), EncodeVarint(n);
    var tail := value + rest;
    assert bytes == key + tail;
    KeyReads(bytes, number * 8, tail);
    VarintReads(n, rest);
    SliceOfSlice(bytes, |key|, |bytes|, |value|, |tail|);
    DropEncoded(value, rest);
  }

  lemma FixedRoundTrip(number: nat, payload: seq<byte>, kind: nat, rest: seq<byte>)
    requires number * 8 + 7 < TWO64
    requires (kind == 1 && |payload| == 8) || (kind == 5 && |payload| == 4)
    ensures DecodeField(EncodeVarint(number * 8 + kind) + payload + rest) == Ok(Next(Field(number, Fixed), rest))
  {
    hide DecodeVarint, EncodeVarint, DecodeField;
    var bytes := EncodeVarint(number * 8 + kind) + payload + rest;
    var key, tail := EncodeVarint(number * 8 + kind), payload + rest;
    assert bytes == key + tail;
    KeyReads(bytes, number * 8 + kind, tail);
    SliceOfSlice(bytes, |key|, |bytes|, |payload|, |tail|);
    DropEncoded(payload, rest);
  }

  /** Any well-formed field reads back, whatever follows it. */
  lemma FieldRoundTrip(w: Written, rest: seq<byte>)
    requires WellFormed(w)
    ensures DecodeField(EncodeField(w) + rest) == Ok(Next(Seen(w), rest))
  {
    hide DecodeVarint, EncodeVarint, DecodeField;
    match w
    case VarintField(number, n) => VarintRoundTripField(number, n, rest);
    case BytesField(number, payload) => BytesRoundTrip(number, payload, rest);
    case Fixed64Field(number, payload) => FixedRoundTrip(number, payload, 1, rest);
    case Fixed32Field(number, payload) => FixedRoundTrip(number, payload, 5, rest);
  }

  function EncodeAll(fields: seq<Written>): seq<byte> {
    if fields == [] then [] else EncodeField(fields[0]) + EncodeAll(fields[1..])
  }

  function DecodeAll(bytes: seq<byte>): Result<seq<Field>>
    decreases |bytes|
  {
    var next := DecodeField(bytes);
    if next.Err? then Err
    else if next.value.End? then Ok([])
    else
      var rest := DecodeAll(next.value.rest);
      if rest.Err? then Err else Ok([next.value.field] + rest.value)
  }

  function SeenAll(fields: seq<Written>): seq<Field> {
    seq(|fields|, i requires 0 <= i < |fields| => Seen(fields[i]))
  }

  ghost predicate AllWellFormed(fields: seq<Written>) {
    forall i :: 0 <= i < |fields| ==> WellFormed(fields[i])
  }

  /** Decoding undoes encoding for every list of well-formed fields. */
  lemma {:induction false} MessageRoundTrip(fields: seq<Written>)
    requires AllWellFormed(fields)
    ensures DecodeAll(EncodeAll(fields)) == Ok(SeenAll(fields))
  {
    hide DecodeVarint, EncodeField, Seen, WellFormed;
    if fields == [] {
      assert SeenAll(fields) == [];
    } else {
      FieldRoundTrip(fields[0], EncodeAll(fields[1..]));
      MessageRoundTrip(fields[1..]);
      assert SeenAll(fields) == [Seen(fields[0])] + SeenAll(fields[1..]);
    }
  }
}
