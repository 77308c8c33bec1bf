/** Reading package and version from an App Bundle's protobuf manifest. Text stays the
    bytes it was encoded as. */
module AabManifest {
  import opened Wrappers
  import opened Text
  import opened Protobuf

  type Bytestring = seq<byte>

  /** `manifest` */
  const MANIFEST: Bytestring := [109, 97, 110, 105, 102, 101, 115, 116]
  /** `package` */
  const PACKAGE: Bytestring := [112, 97, 99, 107, 97, 103, 101]
  /** `versionCode` */
  const VERSION_CODE: Bytestring := [118, 101, 114, 115, 105, 111, 110, 67, 111, 100, 101]
  /** `versionName` */
  const VERSION_NAME: Bytestring := [118, 101, 114, 115, 105, 111, 110, 78, 97, 109, 101]
  /** `http://schemas.android.com/apk/res/android` */
  const ANDROID_NAMESPACE: Bytestring := [
    104, 116, 116, 112, 58, 47, 47, 115, 99, 104, 101, 109, 97, 115, 46, 97, 110, 100, 114, 111, 105, 100,
    46, 99, 111, 109, 47, 97, 112, 107, 47, 114, 101, 115, 47, 97, 110, 100, 114, 111, 105, 100]

  datatype Attribute = Attribute(
    namespaceUri: Bytestring, name: Bytestring, value: Bytestring,
    compiledInt: Option<int>, compiledString: Option<Bytestring>)

  const NO_ATTRIBUTE: Attribute := Attribute([], [], [], None, None)

  const TWO32: int := 0x1_0000_0000
  const TWO31: int := 0x8000_0000

  /** `raw as u32 as i32`. */
  function AsI32(raw: nat): int {
    var low := raw % TWO32;
    if low < TWO31 then low else low - TWO32
  }

  // ── What the loops compute, field by field ──────────────────────

  /** The inner loop over a compiled string: it stops at the first other field. */
  function StringValue(bytes: seq<byte>, a: Attribute): Result<Attribute>
    decreases |bytes|
  {
    var next := DecodeField(bytes);
    if next.Err? then Err
    else if next.value.Next? && next.value.field.number == 1 && next.value.field.value.Bytes? then
      StringValue(next.value.rest, a.(compiledString := Some(next.value.field.value.payload)))
    else Ok(a)
  }

  function PrimitiveField(f: Field, a: Attribute): Attribute {
    if (f.number == 6 || f.number == 7) && f.value.Varint? then a.(compiledInt := Some(AsI32(f.value.n))) else a
  }

  function PrimitiveValue(bytes: seq<byte>, a: Attribute): Result<Attribute>
    decreases |bytes|
  {
    var next := DecodeField(bytes);
    if next.Err? then Err
    else if next.value.End? then Ok(a)
    else PrimitiveValue(next.value.rest, PrimitiveField(next.value.field, a))
  }

  function ItemField(f: Field, a: Attribute): Result<Attribute> {
    if f.number == 2 && f.value.Bytes? then StringValue(f.value.payload, a)
    else if f.number == 7 && f.value.Bytes? then PrimitiveValue(f.value.payload, a)
    else Ok(a)
  }

  function ItemValue(bytes: seq<byte>, a: Attribute): Result<Attribute>
    decreases |bytes|
  {
    var next := DecodeField(bytes);
    if next.Err? then Err
    else if next.value.End? then Ok(a)
    else
      var now := ItemField(next.value.field, a);
      if now.Err? then Err else ItemValue(next.value.rest, now.value)
  }

  function AttributeField(f: Field, a: Attribute): Result<Attribute> {
    if !f.value.Bytes? then Ok(a)
    else if f.number == 1 then Ok(a.(namespaceUri := f.value.payload))
    else if f.number == 2 then Ok(a.(name := f.value.payload))
    else if f.number == 3 then Ok(a.(value := f.value.payload))
    else if f.number == 6 then ItemValue(f.value.payload, a)
    else Ok(a)
  }

  function AttributeValue(bytes: seq<byte>, a: Attribute): Result<Attribute>
    decreases |bytes|
  {
    var next := DecodeField(bytes);
    if next.Err? then Err
    else if next.value.End? then Ok(a)
    else
      var now := AttributeField(next.value.field, a);
      if now.Err? then Err else AttributeValue(next.value.rest, now.value)
  }

  datatype Element = Element(name: Bytestring, attributes: seq<Attribute>)

  function ElementField(f: Field, e: Element): Result<Element> {
    if f.number == 3 && f.value.Bytes? then Ok(e.(name := f.value.payload))
    else if f.number == 4 && f.value.Bytes? then
      var a := AttributeValue(f.value.payload, NO_ATTRIBUTE);
      if a.Err? then Err else Ok(e.(attributes := e.attributes + [a.value]))
    else Ok(e)
  }

  function ElementValue(bytes: seq<byte>, e: Element): Result<Element>
    decreases |bytes|
  {
    var next := DecodeField(bytes);
    if next.Err? then Err
    else if next.value.End? then Ok(e)
    else
      var now := ElementField(next.value.field, e);
      if now.Err? then Err else ElementValue(next.value.rest, now.value)
  }

  function NodeField(f: Field, found: Option<seq<byte>>): Option<seq<byte>> {
    if f.number == 1 && f.value.Bytes? then Some(f.value.payload) else found
  }

  function NodeValue(bytes: seq<byte>, found: Option<seq<byte>>): Result<Option<seq<byte>>>
    decreases |bytes|
  {
    var next := DecodeField(bytes);
    if next.Err? then Err
    else if next.value.End? then Ok(found)
    else NodeValue(next.value.rest, NodeField(next.value.field, found))
  }

  function FindAttribute(attributes: seq<Attribute>, namespace: Bytestring, name: Bytestring): Option<Attribute> {
    if attributes == [] then None
    else if attributes[0].namespaceUri == namespace && attributes[0].name == name then Some(attributes[0])
    else FindAttribute(attributes[1..], namespace, name)
  }

  // ── Decimal version codes ───────────────────────────────────────

  predicate IsDigit(b: byte) {
    48 <= b <= 57
  }

  predicate IsBlankByte(b: byte) {
    b == 32 || 9 <= b <= 13
  }

  function TrimBytes(s: Bytestring): Bytestring {
    if s != [] && IsBlankByte(s[0]) then TrimBytes(s[1..])
    else if s != [] && IsBlankByte(s[|s| - 1]) then TrimBytes(s[..|s| - 1])
    else s
  }

  function Decimal(s: Bytestring): int {
    if s == [] then 0 else Decimal(s[..|s| - 1]) * 10 + s[|s| - 1] as int - 48
  }

  function ParseDigits(digits: Bytestring, negative: bool): Result<int> {
    if digits == [] || exists i :: 0 <= i < |digits| && !IsDigit(digits[i]) then Err
    else
      var n: int := if negative then -Decimal(digits) else Decimal(digits);
      if -0x8000_0000_0000_0000 <= n < 0x8000_0000_0000_0000 then Ok(n) else Err
  }

  /** `str::parse::<i64>`. */
  function ParseI64(s: Bytestring): Result<int> {
    if s != [] && (s[0] == 45 || s[0] == 43) then ParseDigits(s[1..], s[0] == 45) else ParseDigits(s, false)
  }

  // ── The manifest ────────────────────────────────────────────────

  datatype AabManifest = AabManifest(packageName: Bytestring, versionCode: int, versionName: Option<Bytestring>)

  /** The part of `parse_manifest` after the element is decoded. */
  function FromElement(e: Element): Result<AabManifest> {
    var package := FindAttribute(e.attributes, [], PACKAGE);
    var code := FindAttribute(e.attributes, ANDROID_NAMESPACE, VERSION_CODE);
    var name := FindAttribute(e.attributes, ANDROID_NAMESPACE, VERSION_NAME);
    if e.name != MANIFEST || package.None? || package.value.value == [] || code.None? then Err
    else
      var versionCode := if code.value.compiledInt.Some? then Ok(code.value.compiledInt.value)
                         else ParseI64(TrimBytes(code.value.value));
      if versionCode.Err? then Err
      else Ok(AabManifest(package.value.value, versionCode.value,
        if name.None? then None
        else if name.value.value != [] then Some(name.value.value)
        else name.value.compiledString))
  }

  function ManifestValue(bytes: seq<byte>): Result<AabManifest> {
    var node := NodeValue(bytes, None);
    if node.Err? || node.value.None? then Err
    else
      var element := ElementValue(node.value.value, Element([], []));
      if element.Err? then Err else FromElement(element.value)
  }

  // ── The decoding loops ──────────────────────────────────────────

  method DecodeString(bytes: seq<byte>, attribute: Attribute) returns (r: Result<Attribute>)
    ensures r == StringValue(bytes, attribute)
  {
    hide DecodeField;
    var a := attribute;
    var message := new Fields(bytes);
    while true
      invariant StringValue(message.bytes, a) == StringValue(bytes, attribute)
      decreases |message.bytes|
    {
      var next := message.NextField();
      if next.Err? {
        return Err;
      }
      if next.value.Next? && next.value.field.number == 1 && next.value.field.value.Bytes? {
        a := a.(compiledString := Some(next.value.field.value.payload));
      } else {
        return Ok(a);
      }
    }
  }

  method DecodePrimitive(bytes: seq<byte>, attribute: Attribute) returns (r: Result<Attribute>)
    ensures r == PrimitiveValue(bytes, attribute)
  {
    hide DecodeField, PrimitiveField;
    var a := attribute;
    var primitive := new Fields(bytes);
    while true
      invariant PrimitiveValue(primitive.bytes, a) == PrimitiveValue(bytes, attribute)
      decreases |primitive.bytes|
    {
      var next := primitive.NextField();
      if next.Err? {
        return Err;
      }
      if next.value.End? {
        return Ok(a);
      }
      a := PrimitiveField(next.value.field, a);
    }
  }

  /** `decode_compiled_item`. */
  method DecodeCompiledItem(bytes: seq<byte>, attribute: Attribute) returns (r: Result<Attribute>)
    ensures r == ItemValue(bytes, attribute)
  {
    hide DecodeField, StringValue, PrimitiveValue;
    var a := attribute;
    var item := new Fields(bytes);
    while true
      invariant ItemValue(item.bytes, a) == ItemValue(bytes, attribute)
      decreases |item.bytes|
    {
      var next := item.NextField();
      if next.Err? {
        return Err;
      }
      if next.value.End? {
        return Ok(a);
      }
      var f := next.value.field;
      var now := Ok(a);
      if f.number == 2 && f.value.Bytes? {
        now := DecodeString(f.value.payload, a);
      } else if f.number == 7 && f.value.Bytes? {
        now := DecodePrimitive(f.value.payload, a);
      }
      if now.Err? {
        return Err;
      }
      a := now.value;
    }
  }

  /** `decode_attribute`. */
  method DecodeAttribute(bytes: seq<byte>) returns (r: Result<Attribute>)
    ensures r == AttributeValue(bytes, NO_ATTRIBUTE)
  {
    hide DecodeField, ItemValue;
    var a := NO_ATTRIBUTE;
    var message := new Fields(bytes);
    while true
      invariant AttributeValue(message.bytes, a) == AttributeValue(bytes, NO_ATTRIBUTE)
      decreases |message.bytes|
    {
      var next := message.NextField();
      if next.Err? {
        return Err;
      }
      if next.value.End? {
        return Ok(a);
      }
      var f := next.value.field;
      if f.value.Bytes? && f.number == 1 {
        a := a.(namespaceUri := f.value.payload);
      } else if f.value.Bytes? && f.number == 2 {
        a := a.(name := f.value.payload);
      } else if f.value.Bytes? && f.number == 3 {
        a := a.(value := f.value.payload);
      } else if f.value.Bytes? && f.number == 6 {
        var now := DecodeCompiledItem(f.value.payload, a);
        if now.Err? {
          return Err;
        }
        a := now.value;
      }
    }
  }

  /** The element loop of `parse_manifest`. */
  method DecodeElement(bytes: seq<byte>) returns (r: Result<Element>)
    ensures r == ElementValue(bytes, Element([], []))
  {
    hide DecodeField, AttributeValue;
    var e := Element([], []);
    var message := new Fields(bytes);
    while true
      invariant ElementValue(message.bytes, e) == ElementValue(bytes, Element([], []))
      decreases |message.bytes|
    {
      var next := message.NextField();
      if next.Err? {
        return Err;
      }
      if next.value.End? {
        return Ok(e);
      }
      var f := next.value.field;
      if f.number == 3 && f.value.Bytes? {
        e := e.(name := f.value.payload);
      } else if f.number == 4 && f.value.Bytes? {
        var a := DecodeAttribute(f.value.payload);
        if a.Err? {
          return Err;
        }
        e := e.(attributes := e.attributes + [a.value]);
      }
    }
  }

  /** `parse_manifest`. */
  method ParseManifest(bytes: seq<byte>) returns (r: Result<AabManifest>)
    ensures r == ManifestValue(bytes)
  {
    hide DecodeField, ElementValue, FromElement;
    var node := new Fields(bytes);
    var found: Option<seq<byte>> := None;
    var done := false;
    while !done
      invariant if done then NodeValue(bytes, None) == Ok(found) else NodeValue(node.bytes, found) == NodeValue(bytes, None)
      decreases |node.bytes|, !done
    {
      var next := node.NextField();
      if next.Err? {
        return Err;
      }
      if next.value.End? {
        done := true;
      } else if next.value.field.number == 1 && next.value.field.value.Bytes? {
        found := Some(next.value.field.value.payload);
      }
    }
    if found.None? {
      return Err;
    }
    var element := DecodeElement(found.value);
    if element.Err? {
      return Err;
    }
    r := FromElement(element.value);
  }

  // ── Round trip ──────────────────────────────────────────────────

  /** The length-delimited fields with these numbers, in order. */
  function Kept(fields: seq<Written>, numbers: set<nat>): (kept: seq<Written>)
    ensures forall i :: 0 <= i < |kept| ==> kept[i].BytesField? && kept[i].number in numbers
  {
    if fields == [] then []
    else (if fields[0].BytesField? && fields[0].number in numbers then [fields[0]] else []) + Kept(fields[1..], numbers)
  }

  /** The varint fields with these numbers, in order. */
  function KeptInts(fields: seq<Written>, numbers: set<nat>): (kept: seq<Written>)
    ensures forall i :: 0 <= i < |kept| ==> kept[i].VarintField? && kept[i].number in numbers
  {
    if fields == [] then []
    else (if fields[0].VarintField? && fields[0].number in numbers then [fields[0]] else []) + KeptInts(fields[1..], numbers)
  }

  /** An encoded message reads as its first field and the encoding of the others. */
  lemma FirstField(fields: seq<Written>)
    requires fields != [] && WellFormed(fields[0])
    ensures DecodeField(EncodeAll(fields)) == Ok(Next(Seen(fields[0]), EncodeAll(fields[1..])))
  {
    hide DecodeField, EncodeField, Seen, WellFormed;
    FieldRoundTrip(fields[0], EncodeAll(fields[1..]));
  }

  lemma {:induction false} NodeIgnores(fields: seq<Written>, found: Option<seq<byte>>)
    requires AllWellFormed(fields)
    ensures NodeValue(EncodeAll(fields), found) == Ok(var kept := Kept(fields, {1}); if kept == [] then found else Some(kept[|kept| - 1].payload))
  {
    hide DecodeField, EncodeAll, WellFormed;
    if fields == [] {
      NoFields();
    } else {
      FirstField(fields);
      NodeIgnores(fields[1..], NodeField(Seen(fields[0]), found));
    }
  }

  /** The attributes that messages decode to, in order. */
  function Decoded(messages: seq<Written>): Result<seq<Attribute>>
    requires forall i :: 0 <= i < |messages| ==> messages[i].BytesField?
  {
    if messages == [] then Ok([])
    else
      var first, rest := AttributeValue(messages[0].payload, NO_ATTRIBUTE), Decoded(messages[1..]);
      if first.Err? || rest.Err? then Err else Ok([first.value] + rest.value)
  }

  /** The payload of the last of these fields, or what was there before. */
  function LastPayload(fields: seq<Written>, before: Bytestring): Bytestring
    requires forall i :: 0 <= i < |fields| ==> fields[i].BytesField?
  {
    if fields == [] then before else fields[|fields| - 1].payload
  }

  /** What an element's fields add to it: its last name and all attributes, in order. */
  ghost function WithFields(fields: seq<Written>, e: Element): Result<Element> {
    var attributes := Decoded(Kept(fields, {4}));
    if attributes.Err? then Err else Ok(Element(LastPayload(Kept(fields, {3}), e.name), e.attributes + attributes.value))
  }

  lemma WithFirst(fields: seq<Written>, e: Element)
    requires fields != []
    ensures
      var now := ElementField(Seen(fields[0]), e);
      WithFields(fields, e) == if now.Err? then Err else WithFields(fields[1..], now.value)
  {
    hide AttributeValue, Kept;
    KeptFirst(fields, {3});
    KeptFirst(fields, {4});
    var rest := Decoded(Kept(fields[1..], {4}));
    if fields[0].BytesField? && fields[0].number == 4 && rest.Ok? {
      var first := AttributeValue(fields[0].payload, NO_ATTRIBUTE);
      if first.Ok? {
        assert e.attributes + ([first.value] + rest.value) == e.attributes + [first.value] + rest.value;
      }
    }
  }

  /** The element loop reads names and attributes wherever they stand, and nothing else. */
  lemma {:induction false} ElementReads(fields: seq<Written>, e: Element)
    requires AllWellFormed(fields)
    ensures ElementValue(EncodeAll(fields), e) == WithFields(fields, e)
  {
    hide DecodeField, EncodeAll, WellFormed, ElementField, WithFields, Seen;
    if fields == [] {
      NoFields();
      NothingAdded(e);
    } else {
      FirstField(fields);
      WithFirst(fields, e);
      var now := ElementField(Seen(fields[0]), e);
      if now.Ok? {
        ElementReads(fields[1..], now.value);
      }
    }
  }

  lemma NothingAdded(e: Element)
    ensures WithFields([], e) == Ok(e)
  {
    assert e.attributes + [] == e.attributes;
  }

  lemma NothingKept(numbers: set<nat>)
    ensures Kept([], numbers) == []
  {
  }

  lemma KeptFirst(fields: seq<Written>, numbers: set<nat>)
    requires fields != []
    ensures
      var first, rest := fields[0], Kept(fields[1..], numbers);
      if first.BytesField? && first.number in numbers
      then Kept(fields, numbers) != [] && Kept(fields, numbers)[0] == first && Kept(fields, numbers)[1..] == rest
      else Kept(fields, numbers) == rest
  {
  }

  lemma {:induction false} AttributeIgnores(fields: seq<Written>, a: Attribute)
    requires AllWellFormed(fields)
    ensures AttributeValue(EncodeAll(fields), a) == AttributeKept(Kept(fields, {1, 2, 3, 6}), a)
  {
    hide DecodeField, EncodeAll, WellFormed, ItemValue, Kept;
    if fields == [] {
      NoFields();
      NothingKept({1, 2, 3, 6});
    } else {
      FirstField(fields);
      var now := AttributeField(Seen(fields[0]), a);
      if now.Ok? {
        AttributeIgnores(fields[1..], now.value);
      }
      KeptFirst(fields, {1, 2, 3, 6});
    }
  }

  function AttributeKept(kept: seq<Written>, a: Attribute): Result<Attribute> {
    if kept == [] then Ok(a)
    else
      var now := AttributeField(Seen(kept[0]), a);
      if now.Err? then Err else AttributeKept(kept[1..], now.value)
  }

  lemma {:induction false} ItemIgnores(fields: seq<Written>, a: Attribute)
    requires AllWellFormed(fields)
    ensures ItemValue(EncodeAll(fields), a) == ItemKept(Kept(fields, {2, 7}), a)
  {
    hide DecodeField, EncodeAll, WellFormed, StringValue, PrimitiveValue, Kept;
    if fields == [] {
      NoFields();
      NothingKept({2, 7});
    } else {
      FirstField(fields);
      var now := ItemField(Seen(fields[0]), a);
      if now.Ok? {
        ItemIgnores(fields[1..], now.value);
      }
      KeptFirst(fields, {2, 7});
    }
  }

  function ItemKept(kept: seq<Written>, a: Attribute): Result<Attribute> {
    if kept == [] then Ok(a)
    else
      var now := ItemField(Seen(kept[0]), a);
      if now.Err? then Err else ItemKept(kept[1..], now.value)
  }

  lemma {:induction false} PrimitiveIgnores(fields: seq<Written>, a: Attribute)
    requires AllWellFormed(fields)
    ensures PrimitiveValue(EncodeAll(fields), a) == Ok(PrimitiveKept(KeptInts(fields, {6, 7}), a))
  {
    hide DecodeField, EncodeAll, WellFormed, AsI32;
    if fields == [] {
      NoFields();
    } else {
      FirstField(fields);
      var now := PrimitiveField(Seen(fields[0]), a);
      PrimitiveIgnores(fields[1..], now);
      var rest := KeptInts(fields[1..], {6, 7});
      if fields[0].VarintField? && fields[0].number in {6, 7} {
        assert KeptInts(fields, {6, 7}) == [fields[0]] + rest;
        assert ([fields[0]] + rest)[1..] == rest;
      } else {
        assert KeptInts(fields, {6, 7}) == [] + rest == rest;
        assert now == a;
      }
    }
  }

  function PrimitiveKept(kept: seq<Written>, a: Attribute): Attribute {
    if kept == [] then a else PrimitiveKept(kept[1..], PrimitiveField(Seen(kept[0]), a))
  }

  /** `raw` holds the version code in two's complement, sign-extended to 64 bits or not. */
  ghost predicate HoldsCode(raw: nat, code: int) {
    && -TWO31 <= code < TWO31
    && (raw == (if code < 0 then TWO64 + code else code) || raw == (if code < 0 then TWO32 + code else code))
  }

  lemma VersionCodeReads(raw: nat, code: int)
    requires HoldsCode(raw, code)
    ensures AsI32(raw) == code
  {
    if code < 0 {
      assert TWO64 + code == (TWO32 - 1) * TWO32 + (TWO32 + code);
      assert (TWO32 + code) % TWO32 == TWO32 + code;
    }
  }

  /** The attribute loop looks at nothing but these fields. */
  ghost predicate HoldsText(fields: seq<Written>, namespace: Bytestring, name: Bytestring, value: Bytestring) {
    && AllWellFormed(fields)
    && Kept(fields, {1, 2, 3, 6}) ==
         (if namespace == [] then [] else [BytesField(1, namespace)]) + [BytesField(2, name), BytesField(3, value)]
  }

  ghost predicate HoldsInt(primitive: seq<Written>, code: int) {
    && AllWellFormed(primitive)
    && |KeptInts(primitive, {6, 7})| == 1
    && HoldsCode(KeptInts(primitive, {6, 7})[0].n, code)
  }

  /** A version code attribute: a compiled item with an int primitive. */
  ghost predicate HoldsVersionCode(fields: seq<Written>, item: seq<Written>, primitive: seq<Written>, code: int) {
    && AllWellFormed(fields) && AllWellFormed(item)
    && Kept(fields, {1, 2, 3, 6}) == [BytesField(1, ANDROID_NAMESPACE), BytesField(2, VERSION_CODE), BytesField(6, EncodeAll(item))]
    && Kept(item, {2, 7}) == [BytesField(7, EncodeAll(primitive))]
    && HoldsInt(primitive, code)
  }

  /** Attribute messages as an element holds them. */
  function AsFields(messages: seq<seq<Written>>): (r: seq<Written>)
    ensures |r| == |messages| && forall i :: 0 <= i < |r| ==> r[i] == BytesField(4, EncodeAll(messages[i]))
  {
    seq(|messages|, i requires 0 <= i < |messages| => BytesField(4, EncodeAll(messages[i])))
  }

  /** A manifest element with exactly these attribute messages, among any other fields. */
  ghost predicate HoldsElement(element: seq<Written>, messages: seq<seq<Written>>) {
    && AllWellFormed(element)
    && Kept(element, {3}) != [] && LastPayload(Kept(element, {3}), []) == MANIFEST
    && Kept(element, {4}) == AsFields(messages)
  }

  /** The attributes that the messages decode to. */
  ghost predicate DecodeTo(messages: seq<seq<Written>>, attributes: seq<Attribute>) {
    && |messages| == |attributes|
    && forall i :: 0 <= i < |messages| ==> AttributeValue(EncodeAll(messages[i]), NO_ATTRIBUTE) == Ok(attributes[i])
  }

  predicate HasKey(a: Attribute, namespace: Bytestring, name: Bytestring) {
    a.namespaceUri == namespace && a.name == name
  }

  /** The first attribute of this name stands at `k`. */
  ghost predicate FirstAt(attributes: seq<Attribute>, k: nat, namespace: Bytestring, name: Bytestring) {
    k < |attributes| && HasKey(attributes[k], namespace, name) && forall i :: 0 <= i < k ==> !HasKey(attributes[i], namespace, name)
  }

  lemma TextAttribute(fields: seq<Written>, namespace: Bytestring, name: Bytestring, value: Bytestring)
    requires HoldsText(fields, namespace, name, value)
    ensures AttributeValue(EncodeAll(fields), NO_ATTRIBUTE) == Ok(Attribute(namespace, name, value, None, None))
  {
    hide AttributeValue, EncodeAll, ItemValue;
    AttributeIgnores(fields, NO_ATTRIBUTE);
    var kept := Kept(fields, {1, 2, 3, 6});
    var a := NO_ATTRIBUTE.(namespaceUri := namespace);
    var last, two := [BytesField(3, value)], [BytesField(2, name), BytesField(3, value)];
    if namespace == [] {
      assert kept == two;
    } else {
      assert kept[1..] == two;
      assert AttributeKept(kept, NO_ATTRIBUTE) == AttributeKept(two, a);
    }
    assert two[1..] == last && last[1..] == [];
    assert AttributeKept(two, a) == AttributeKept(last, a.(name := name));
    assert AttributeKept(last, a.(name := name)) == AttributeKept([], a.(name := name, value := value));
  }

  lemma CompiledItem(item: seq<Written>, primitive: seq<Written>, code: int, a: Attribute)
    requires AllWellFormed(item) && HoldsInt(primitive, code)
    requires Kept(item, {2, 7}) == [BytesField(7, EncodeAll(primitive))]
    ensures ItemValue(EncodeAll(item), a) == Ok(a.(compiledInt := Some(code)))
  {
    hide EncodeAll, ItemValue, PrimitiveValue, AsI32, HoldsCode;
    ItemIgnores(item, a);
    assert Kept(item, {2, 7})[1..] == [];
    PrimitiveIgnores(primitive, a);
    var kept := KeptInts(primitive, {6, 7});
    assert kept[1..] == [];
    VersionCodeReads(kept[0].n, code);
  }

  lemma CodeAttribute(fields: seq<Written>, item: seq<Written>, primitive: seq<Written>, code: int)
    requires HoldsVersionCode(fields, item, primitive, code)
    ensures AttributeValue(EncodeAll(fields), NO_ATTRIBUTE) == Ok(Attribute(ANDROID_NAMESPACE, VERSION_CODE, [], Some(code), None))
  {
    hide AttributeValue, EncodeAll, ItemValue, HoldsInt;
    AttributeIgnores(fields, NO_ATTRIBUTE);
    var kept := Kept(fields, {1, 2, 3, 6});
    var a := NO_ATTRIBUTE.(namespaceUri := ANDROID_NAMESPACE);
    var b := a.(name := VERSION_CODE);
    var last, two := [BytesField(6, EncodeAll(item))], [BytesField(2, VERSION_CODE), BytesField(6, EncodeAll(item))];
    assert kept[1..] == two && two[1..] == last && last[1..] == [];
    assert AttributeKept(kept, NO_ATTRIBUTE) == AttributeKept(two, a);
    assert AttributeKept(two, a) == AttributeKept(last, b);
    CompiledItem(item, primitive, code, b);
    assert AttributeKept(last, b) == AttributeKept([], b.(compiledInt := Some(code)));
  }

  lemma {:induction false} DecodedAre(messages: seq<seq<Written>>, attributes: seq<Attribute>)
    requires DecodeTo(messages, attributes)
    ensures Decoded(AsFields(messages)) == Ok(attributes)
  {
    hide AttributeValue, EncodeAll;
    if messages != [] {
      DecodedAre(messages[1..], attributes[1..]);
      assert AsFields(messages)[1..] == AsFields(messages[1..]);
      assert attributes == [attributes[0]] + attributes[1..];
    }
  }

  lemma {:induction false} FindFirst(attributes: seq<Attribute>, k: nat, namespace: Bytestring, name: Bytestring)
    requires FirstAt(attributes, k, namespace, name)
    ensures FindAttribute(attributes, namespace, name) == Some(attributes[k])
  {
    if k > 0 {
      assert !HasKey(attributes[0], namespace, name);
      var rest := attributes[1..];
      forall i | 0 <= i < k - 1
        ensures !HasKey(rest[i], namespace, name)
      {
        assert rest[i] == attributes[i + 1];
      }
      FindFirst(attributes[1..], k - 1, namespace, name);
    }
  }

  /** `parse_manifest` recovers any package, any 32-bit version code and any version name
      from an encoded manifest, whatever other attributes stand among the three, in whatever
      order, and with unknown fields anywhere in its messages. */
  lemma ManifestRoundTrip(
    node: seq<Written>, element: seq<Written>, messages: seq<seq<Written>>, attributes: seq<Attribute>,
    p: nat, c: nat, n: nat, item: seq<Written>, primitive: seq<Written>,
    package: Bytestring, code: int, name: Bytestring)
    requires AllWellFormed(node) && Kept(node, {1}) == [BytesField(1, EncodeAll(element))]
    requires HoldsElement(element, messages) && DecodeTo(messages, attributes)
    requires p < |messages| && c < |messages| && n < |messages|
    requires FirstAt(attributes, p, [], PACKAGE) && HoldsText(messages[p], [], PACKAGE, package) && package != []
    requires FirstAt(attributes, c, ANDROID_NAMESPACE, VERSION_CODE) && HoldsVersionCode(messages[c], item, primitive, code)
    requires FirstAt(attributes, n, ANDROID_NAMESPACE, VERSION_NAME) && HoldsText(messages[n], ANDROID_NAMESPACE, VERSION_NAME, name) && name != []
    ensures ManifestValue(EncodeAll(node)) == Ok(AabManifest(package, code, Some(name)))
  {
    hide NodeValue, ElementValue, AttributeValue, EncodeAll, HoldsText, HoldsVersionCode, HoldsElement, FirstAt, FromElement;
    NodeIgnores(node, None);
    ElementHeld(element, messages, attributes);
    TextAttribute(messages[p], [], PACKAGE, package);
    CodeAttribute(messages[c], item, primitive, code);
    TextAttribute(messages[n], ANDROID_NAMESPACE, VERSION_NAME, name);
    FoundAll(attributes, p, c, n, package, code, name);
  }

  lemma ElementHeld(element: seq<Written>, messages: seq<seq<Written>>, attributes: seq<Attribute>)
    requires HoldsElement(element, messages) && DecodeTo(messages, attributes)
    ensures ElementValue(EncodeAll(element), Element([], [])) == Ok(Element(MANIFEST, attributes))
  {
    hide ElementValue, EncodeAll, DecodeTo, Decoded;
    ElementReads(element, Element([], []));
    DecodedAre(messages, attributes);
    assert [] + attributes == attributes;
  }

  lemma FoundAll(attributes: seq<Attribute>, p: nat, c: nat, n: nat, package: Bytestring, code: int, name: Bytestring)
    requires FirstAt(attributes, p, [], PACKAGE) && attributes[p].value == package != []
    requires FirstAt(attributes, c, ANDROID_NAMESPACE, VERSION_CODE) && attributes[c].compiledInt == Some(code)
    requires FirstAt(attributes, n, ANDROID_NAMESPACE, VERSION_NAME) && attributes[n].value == name != []
    ensures FromElement(Element(MANIFEST, attributes)) == Ok(AabManifest(package, code, Some(name)))
  {
    hide ParseI64, TrimBytes, FindAttribute;
    FindFirst(attributes, p, [], PACKAGE);
    FindFirst(attributes, c, ANDROID_NAMESPACE, VERSION_CODE);
    FindFirst(attributes, n, ANDROID_NAMESPACE, VERSION_NAME);
  }

  lemma NoFields()
    ensures EncodeAll([]) == [] && DecodeField([]) == Ok(End)
  {
    hide DecodeVarint;
  }

  // ── Version codes as text, and compiled version names ───────────

  function DecimalBytes(n: nat): (s: Bytestring)
    ensures s != [] && forall i :: 0 <= i < |s| ==> IsDigit(s[i])
  {
    if n < 10 then [(48 + n) as byte] else DecimalBytes(n / 10) + [(48 + n % 10) as byte]
  }

  function DecimalText(n: int): Bytestring {
    if n < 0 then [45] + DecimalBytes(-n) else DecimalBytes(n)
  }

  lemma {:induction false} DecimalReads(n: nat)
    ensures Decimal(DecimalBytes(n)) == n
  {
    if n < 10 {
      assert DecimalBytes(n)[..0] == [];
    } else {
      DecimalReads(n / 10);
      var s := DecimalBytes(n);
      assert s[..|s| - 1] == DecimalBytes(n / 10);
    }
  }

  /** Every 64-bit number reads back from its decimal text. */
  lemma ParseDecimal(n: int)
    requires -0x8000_0000_0000_0000 <= n < 0x8000_0000_0000_0000
    ensures ParseI64(DecimalText(n)) == Ok(n)
  {
    hide DecimalBytes, Decimal;
    DecimalReads(if n < 0 then -n else n);
    var s := DecimalText(n);
    if n < 0 {
      assert s[1..] == DecimalBytes(-n);
    } else {
      assert IsDigit(s[0]);
    }
  }

  /** Anything else is refused: no digits, or something else among them. */
  lemma ParseRefuses(s: Bytestring)
    requires s == [] || exists i :: 1 <= i < |s| && !IsDigit(s[i])
    ensures ParseI64(s).Err?
  {
    hide Decimal;
    if s != [] {
      var i :| 1 <= i < |s| && !IsDigit(s[i]);
      assert s[1..][i - 1] == s[i];
    }
  }

  predicate Solid(s: Bytestring) {
    s != [] && !IsBlankByte(s[0]) && !IsBlankByte(s[|s| - 1])
  }

  ghost predicate Blanks(s: Bytestring) {
    forall i :: 0 <= i < |s| ==> IsBlankByte(s[i])
  }

  lemma {:induction false} TrimLeading(lead: Bytestring, s: Bytestring)
    requires Blanks(lead)
    ensures TrimBytes(lead + s) == TrimBytes(s)
  {
    if lead == [] {
      assert lead + s == s;
    } else {
      assert (lead + s)[1..] == lead[1..] + s;
      TrimLeading(lead[1..], s);
    }
  }

  lemma {:induction false} TrimTrailing(s: Bytestring, tail: Bytestring)
    requires Blanks(tail) && Solid(s)
    ensures TrimBytes(s + tail) == s
    decreases |tail|
  {
    if tail == [] {
      assert s + tail == s;
    } else {
      var n := |tail| - 1;
      var all := s + tail;
      assert all[0] == s[0] && all[|all| - 1] == tail[n];
      assert all[..|all| - 1] == s + tail[..n];
      TrimTrailing(s, tail[..n]);
    }
  }

  lemma DecimalIsSolid(n: int)
    ensures Solid(DecimalText(n))
  {
    hide DecimalBytes;
    var s := DecimalText(n);
    var digits := DecimalBytes(if n < 0 then -n else n);
    assert IsDigit(digits[0]) && s[|s| - 1] == digits[|digits| - 1] && IsDigit(digits[|digits| - 1]);
  }

  /** A decimal text with blanks around it. */
  ghost predicate IsPadded(text: Bytestring, lead: Bytestring, code: int, tail: Bytestring) {
    text == lead + DecimalText(code) + tail && Blanks(lead) && Blanks(tail)
  }

  lemma PaddedReads(text: Bytestring, lead: Bytestring, code: int, tail: Bytestring)
    requires IsPadded(text, lead, code, tail) && -0x8000_0000_0000_0000 <= code < 0x8000_0000_0000_0000
    ensures ParseI64(TrimBytes(text)) == Ok(code)
  {
    hide ParseI64, TrimBytes, DecimalText, Blanks;
    assert text == lead + (DecimalText(code) + tail);
    TrimLeading(lead, DecimalText(code) + tail);
    DecimalIsSolid(code);
    TrimTrailing(DecimalText(code), tail);
    ParseDecimal(code);
  }

  /** Without a compiled version code the textual one is read, any 64-bit number with blanks
      around it; without a version name there is none. */
  lemma TextManifest(e: Element, p: nat, c: nat, package: Bytestring, lead: Bytestring, code: int, tail: Bytestring)
    requires e.name == MANIFEST && FirstAt(e.attributes, p, [], PACKAGE) && e.attributes[p].value == package != []
    requires FirstAt(e.attributes, c, ANDROID_NAMESPACE, VERSION_CODE) && e.attributes[c].compiledInt.None?
    requires IsPadded(e.attributes[c].value, lead, code, tail) && -0x8000_0000_0000_0000 <= code < 0x8000_0000_0000_0000
    requires FindAttribute(e.attributes, ANDROID_NAMESPACE, VERSION_NAME).None?
    ensures FromElement(e) == Ok(AabManifest(package, code, None))
  {
    hide ParseI64, TrimBytes, FindAttribute, IsPadded;
    FindFirst(e.attributes, p, [], PACKAGE);
    FindFirst(e.attributes, c, ANDROID_NAMESPACE, VERSION_CODE);
    PaddedReads(e.attributes[c].value, lead, code, tail);
  }

  /** A version name that is only compiled is read from its item. */
  lemma CompiledName(e: Element, p: nat, c: nat, n: nat, package: Bytestring, code: int, name: Bytestring)
    requires e.name == MANIFEST && FirstAt(e.attributes, p, [], PACKAGE) && e.attributes[p].value == package != []
    requires FirstAt(e.attributes, c, ANDROID_NAMESPACE, VERSION_CODE) && e.attributes[c].compiledInt == Some(code)
    requires FirstAt(e.attributes, n, ANDROID_NAMESPACE, VERSION_NAME) && e.attributes[n].value == [] && e.attributes[n].compiledString == Some(name)
    ensures FromElement(e) == Ok(AabManifest(package, code, Some(name)))
  {
    hide ParseI64, TrimBytes, FindAttribute;
    FindFirst(e.attributes, p, [], PACKAGE);
    FindFirst(e.attributes, c, ANDROID_NAMESPACE, VERSION_CODE);
    FindFirst(e.attributes, n, ANDROID_NAMESPACE, VERSION_NAME);
  }

  /** A compiled string item gives its text. */
  lemma CompiledString(item: seq<Written>, inner: seq<Written>, text: Bytestring, a: Attribute)
    requires AllWellFormed(item) && Kept(item, {2, 7}) == [BytesField(2, EncodeAll(inner))]
    requires AllWellFormed(inner) && inner == [BytesField(1, text)]
    ensures ItemValue(EncodeAll(item), a) == Ok(a.(compiledString := Some(text)))
  {
    hide EncodeAll, ItemValue, PrimitiveValue, DecodeField;
    ItemIgnores(item, a);
    assert Kept(item, {2, 7})[1..] == [];
    FirstField(inner);
    assert inner[1..] == [];
    NoFields();
    assert StringValue(EncodeAll(inner), a) == StringValue(EncodeAll([]), a.(compiledString := Some(text)));
    assert StringValue(EncodeAll([]), a.(compiledString := Some(text))) == Ok(a.(compiledString := Some(text)));
  }

  // ── What is refused ─────────────────────────────────────────────

  lemma {:induction false} FoundAt(attributes: seq<Attribute>, namespace: Bytestring, name: Bytestring) returns (k: nat)
    requires FindAttribute(attributes, namespace, name).Some?
    ensures FirstAt(attributes, k, namespace, name) && FindAttribute(attributes, namespace, name) == Some(attributes[k])
  {
    if attributes[0].namespaceUri == namespace && attributes[0].name == name {
      k := 0;
    } else {
      var rest := FoundAt(attributes[1..], namespace, name);
      k := rest + 1;
    }
  }

  ghost predicate HasPackage(e: Element) {
    exists p: nat :: FirstAt(e.attributes, p, [], PACKAGE) && e.attributes[p].value != []
  }

  predicate ReadableCode(a: Attribute) {
    a.compiledInt.Some? || ParseI64(TrimBytes(a.value)).Ok?
  }

  ghost predicate HasCode(e: Element) {
    exists c: nat :: FirstAt(e.attributes, c, ANDROID_NAMESPACE, VERSION_CODE) && ReadableCode(e.attributes[c])
  }

  lemma PackageFound(e: Element)
    ensures
      var package := FindAttribute(e.attributes, [], PACKAGE);
      HasPackage(e) <==> package.Some? && package.value.value != []
  {
    hide FindAttribute;
    if FindAttribute(e.attributes, [], PACKAGE).Some? {
      var k := FoundAt(e.attributes, [], PACKAGE);
      assert FirstAt(e.attributes, k, [], PACKAGE);
    }
    if HasPackage(e) {
      var p: nat :| FirstAt(e.attributes, p, [], PACKAGE) && e.attributes[p].value != [];
      FindFirst(e.attributes, p, [], PACKAGE);
    }
  }

  lemma CodeFound(e: Element)
    ensures
      var code := FindAttribute(e.attributes, ANDROID_NAMESPACE, VERSION_CODE);
      HasCode(e) <==> code.Some? && ReadableCode(code.value)
  {
    hide FindAttribute, ReadableCode;
    if FindAttribute(e.attributes, ANDROID_NAMESPACE, VERSION_CODE).Some? {
      var k := FoundAt(e.attributes, ANDROID_NAMESPACE, VERSION_CODE);
      assert FirstAt(e.attributes, k, ANDROID_NAMESPACE, VERSION_CODE);
    }
    if HasCode(e) {
      var c: nat :| FirstAt(e.attributes, c, ANDROID_NAMESPACE, VERSION_CODE) && ReadableCode(e.attributes[c]);
      FindFirst(e.attributes, c, ANDROID_NAMESPACE, VERSION_CODE);
    }
  }

  /** An element is a manifest exactly when it is called one, its first package attribute of
      no namespace is not empty, and its first Android version code can be read. */
  lemma ManifestAccepts(e: Element)
    ensures FromElement(e).Ok? <==> e.name == MANIFEST && HasPackage(e) && HasCode(e)
  {
    hide FindAttribute, ParseI64, TrimBytes, HasPackage, HasCode;
    PackageFound(e);
    CodeFound(e);
  }
}
