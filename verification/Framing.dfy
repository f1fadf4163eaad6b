/**
 * The hand-written scanner for protobuf messages, and the unary gRPC frame. A thrown error is
 * None. Varints are read as unbounded integers, as in the source; field numbers and lengths are then
 * rounded to machine numbers, and a length that a machine number may not hold exactly is refused.
 */
module Framing {
  import opened Options
  import opened MachineNumbers

  type Byte = b: int | 0 <= b < 0x100

  const MAX_VARINT_BYTES: nat := 10
  const MAX_LENGTH: nat := FIRST_UNSAFE - 1

  // ---- varints ---------------------------------------------------------------------------------

  function PowerOfTwo(n: nat): (p: nat)
    ensures p > 0
  {
    if n == 0 then 1 else 2 * PowerOfTwo(n - 1)
  }

  /** The lower seven bits of a byte, shifted up. */
  function SevenBits(b: Byte, shift: nat): nat {
    b as nat % 0x80 * PowerOfTwo(shift)
  }

  /** Seven bits a byte, the least significant first. */
  function Value(bytes: seq<Byte>): nat {
    if bytes == [] then 0
    else Value(bytes[..|bytes| - 1]) + SevenBits(bytes[|bytes| - 1], 7 * (|bytes| - 1))
  }

  /** All bytes but the last announce another one. */
  predicate IsVarint(bytes: seq<Byte>) {
    && 1 <= |bytes| <= MAX_VARINT_BYTES
    && (forall i :: 0 <= i < |bytes| - 1 ==> bytes[i] >= 0x80)
    && bytes[|bytes| - 1] < 0x80
  }

  /** The length of the varint a message starts with. */
  function VarintLength(m: seq<Byte>, limit: nat): (r: Option<nat>)
    ensures r.Some? ==> 1 <= r.value <= |m| && r.value <= limit
    ensures r.Some? ==> (forall i :: 0 <= i < r.value - 1 ==> m[i] >= 0x80) && m[r.value - 1] < 0x80
    decreases limit
  {
    if m == [] || limit == 0 then None
    else if m[0] < 0x80 then Some(1)
    else
      match VarintLength(m[1..], limit - 1)
      case None => None
      case Some(n) => Some(n + 1)
  }

  /** A varint is read back from the front of anything it is followed by. */
  lemma {:induction false} VarintIsFound(m: seq<Byte>, n: nat, limit: nat)
    requires 1 <= n <= |m| && n <= limit
    requires (forall i :: 0 <= i < n - 1 ==> m[i] >= 0x80) && m[n - 1] < 0x80
    ensures VarintLength(m, limit) == Some(n)
    decreases limit
  {
    if n > 1 {
      VarintIsFound(m[1..], n - 1, limit - 1);
    }
  }

  lemma {:induction false} NoVarint(m: seq<Byte>, limit: nat)
    requires forall i :: 0 <= i < |m| && i < limit ==> m[i] >= 0x80
    ensures VarintLength(m, limit).None?
    decreases limit
  {
    if m != [] && limit > 0 {
      NoVarint(m[1..], limit - 1);
    }
  }

  datatype Varint = Varint(value: nat, nextOffset: nat)

  /** What reading a varint at an offset means. */
  function VarintAt(m: seq<Byte>, start: nat): Option<Varint>
    requires start <= |m|
  {
    match VarintLength(m[start..], MAX_VARINT_BYTES)
    case None => None
    case Some(n) => Some(Varint(Value(m[start..start + n]), start + n))
  }

  lemma EmptyValue(m: seq<Byte>, start: nat)
    requires start <= |m|
    ensures Value(m[start..start]) == 0
  {
  }

  lemma ReadByte(m: seq<Byte>, start: nat, offset: nat)
    requires start <= offset < |m|
    ensures Value(m[start..offset + 1]) == Value(m[start..offset]) + SevenBits(m[offset], 7 * (offset - start))
  {
    assert m[start..offset + 1][..offset - start] == m[start..offset];
  }

  lemma FoundAt(m: seq<Byte>, start: nat, end: nat)
    requires start < end <= |m| && end - start <= MAX_VARINT_BYTES
    requires (forall i :: start <= i < end - 1 ==> m[i] >= 0x80) && m[end - 1] < 0x80
    ensures VarintAt(m, start) == Some(Varint(Value(m[start..end]), end))
  {
    hide Value, VarintLength;
    VarintIsFound(m[start..], end - start, MAX_VARINT_BYTES);
  }

  lemma NotFoundAt(m: seq<Byte>, start: nat, end: nat)
    requires start <= end <= |m| && (end == |m| || end - start >= MAX_VARINT_BYTES)
    requires forall i :: start <= i < end ==> m[i] >= 0x80
    ensures VarintAt(m, start).None?
  {
    hide Value, VarintLength;
    NoVarint(m[start..], MAX_VARINT_BYTES);
  }

  method ReadVarint(m: seq<Byte>, start: nat) returns (r: Option<Varint>)
    requires start <= |m|
    ensures r == VarintAt(m, start)
  {
    hide Value, SevenBits, VarintAt;
    var value: nat, shift: nat, offset := 0, 0, start;
    EmptyValue(m, start);
    while offset < |m| && shift <= 63
      invariant start <= offset <= |m| && shift == 7 * (offset - start) && shift <= 70
      invariant value == Value(m[start..offset])
      invariant forall i :: start <= i < offset ==> m[i] >= 0x80
    {
      var byte := m[offset];
      ReadByte(m, start, offset);
      value := value + SevenBits(byte, shift);
      offset := offset + 1;
      if byte < 0x80 {
        FoundAt(m, start, offset);
        return Some(Varint(value, offset));
      }
      shift := shift + 7;
    }
    NotFoundAt(m, start, offset);
    return None;
  }

  // ---- messages ----------------------------------------------------------------------------------

  datatype Body =
    | VarintBody(bytes: seq<Byte>)
    | Fixed64(bytes: seq<Byte>)
    | Fixed32(bytes: seq<Byte>)
    | Delimited(length: seq<Byte>, payload: seq<Byte>)

  /** A field as it stands in a message: its tag bytes, and the bytes of its value. */
  datatype Field = Field(tag: seq<Byte>, body: Body)

  function FieldNumber(f: Field): nat {
    Value(f.tag) / 8
  }

  /** The field number the scanner compares. */
  function NumberAsRead(f: Field): nat {
    Rounded(FieldNumber(f))
  }

  function WireType(body: Body): nat {
    match body
    case VarintBody(_) => 0
    case Fixed64(_) => 1
    case Delimited(_, _) => 2
    case Fixed32(_) => 5
  }

  function BodyBytes(body: Body): seq<Byte> {
    match body
    case Delimited(length, payload) => length + payload
    case _ => body.bytes
  }

  function FieldBytes(f: Field): seq<Byte> {
    f.tag + BodyBytes(f.body)
  }

  function MessageBytes(fields: seq<Field>): seq<Byte> {
    if fields == [] then [] else FieldBytes(fields[0]) + MessageBytes(fields[1..])
  }

  predicate BodyOk(body: Body) {
    match body
    case VarintBody(bytes) => IsVarint(bytes)
    case Fixed64(bytes) => |bytes| == 8
    case Fixed32(bytes) => |bytes| == 4
    case Delimited(length, payload) => IsVarint(length) && Value(length) == |payload| <= MAX_LENGTH
  }

  predicate WellFormed(f: Field) {
    IsVarint(f.tag) && Value(f.tag) % 8 == WireType(f.body) && BodyOk(f.body)
  }

  /** The payloads of the length-delimited fields whose number reads as the target. */
  function Payloads(fields: seq<Field>, target: nat): seq<seq<Byte>> {
    if fields == [] then []
    else
      (if fields[0].body.Delimited? && NumberAsRead(fields[0]) == target then [fields[0].body.payload] else [])
      + Payloads(fields[1..], target)
  }

  // ---- reading a field ---------------------------------------------------------------------------

  lemma PrefixJoins(m: seq<Byte>, n: nat, b: seq<Byte>)
    requires n <= |m| && b <= m[n..]
    ensures m[..n] + b <= m
  {
  }

  function TakeBody(m: seq<Byte>, wireType: nat): (r: Option<Body>)
    ensures r.Some? ==> |BodyBytes(r.value)| <= |m|
  {
    if wireType == 0 then
      match VarintLength(m, MAX_VARINT_BYTES)
      case None => None
      case Some(n) => Some(VarintBody(m[..n]))
    else if wireType == 1 then if |m| < 8 then None else Some(Fixed64(m[..8]))
    else if wireType == 5 then if |m| < 4 then None else Some(Fixed32(m[..4]))
    else if wireType == 2 then
      match VarintLength(m, MAX_VARINT_BYTES)
      case None => None
      case Some(n) =>
        var length := Value(m[..n]);
        if length > MAX_LENGTH || n + length > |m| then None else Some(Delimited(m[..n], m[n..n + length]))
    else None
  }

  function TakeField(m: seq<Byte>): (r: Option<Field>)
    ensures r.Some? ==> 0 < |FieldBytes(r.value)| <= |m|
  {
    match VarintLength(m, MAX_VARINT_BYTES)
    case None => None
    case Some(n) =>
      match TakeBody(m[n..], Value(m[..n]) % 8)
      case None => None
      case Some(body) => Some(Field(m[..n], body))
  }

  /** A length and as many bytes as it says make a delimited value. */
  lemma DelimitedFits(m: seq<Byte>, n: nat)
    requires n <= |m| && IsVarint(m[..n])
    requires Value(m[..n]) <= MAX_LENGTH && n + Value(m[..n]) <= |m|
    ensures var body := Delimited(m[..n], m[n..n + Value(m[..n])]); BodyOk(body) && BodyBytes(body) <= m
  {
    hide Value, IsVarint;
    PrefixJoins(m, n, m[n..n + Value(m[..n])]);
  }

  lemma TakenDelimited(m: seq<Byte>)
    requires TakeBody(m, 2).Some?
    ensures var body := TakeBody(m, 2).value;
      BodyOk(body) && body.Delimited? && BodyBytes(body) <= m
  {
    hide Value, BodyOk, BodyBytes, VarintLength;
    DelimitedFits(m, VarintLength(m, MAX_VARINT_BYTES).value);
  }

  /** The value that is taken is well-formed, of the wire type, and what the bytes begin with. */
  lemma TakenBody(m: seq<Byte>, wireType: nat)
    requires TakeBody(m, wireType).Some?
    ensures var body := TakeBody(m, wireType).value;
      BodyOk(body) && WireType(body) == wireType && BodyBytes(body) <= m
  {
    hide Value;
    if wireType == 2 {
      hide BodyOk, BodyBytes, TakeBody;
      TakenDelimited(m);
    }
  }

  /** So is the field. */
  lemma TakenField(m: seq<Byte>)
    requires TakeField(m).Some?
    ensures WellFormed(TakeField(m).value) && FieldBytes(TakeField(m).value) <= m
  {
    hide Value, TakeBody, BodyOk, BodyBytes, WireType;
    var n := VarintLength(m, MAX_VARINT_BYTES).value;
    TakenBody(m[n..], Value(m[..n]) % 8);
    PrefixJoins(m, n, BodyBytes(TakeField(m).value.body));
  }

  lemma BodyIsFound(body: Body, rest: seq<Byte>)
    requires BodyOk(body)
    ensures TakeBody(BodyBytes(body) + rest, WireType(body)) == Some(body)
  {
    var m := BodyBytes(body) + rest;
    match body
    case VarintBody(bytes) =>
      VarintIsFound(m, |bytes|, MAX_VARINT_BYTES);
      assert m[..|bytes|] == bytes;
    case Fixed64(bytes) => assert m[..8] == bytes;
    case Fixed32(bytes) => assert m[..4] == bytes;
    case Delimited(length, payload) =>
      VarintIsFound(m, |length|, MAX_VARINT_BYTES);
      assert m[..|length|] == length && m[|length|..|length| + |payload|] == payload;
  }

  /** A well-formed field is read back from the front of anything it is followed by. */
  lemma FieldIsFound(f: Field, rest: seq<Byte>)
    requires WellFormed(f)
    ensures TakeField(FieldBytes(f) + rest) == Some(f)
  {
    hide Value, BodyOk, TakeBody, BodyBytes, VarintLength;
    var m := FieldBytes(f) + rest;
    VarintIsFound(m, |f.tag|, MAX_VARINT_BYTES);
    assert m[..|f.tag|] == f.tag && m[|f.tag|..] == BodyBytes(f.body) + rest;
    BodyIsFound(f.body, rest);
  }

  // ---- reading a message -------------------------------------------------------------------------

  function Parse(m: seq<Byte>): Option<seq<Field>>
    decreases |m|
  {
    if m == [] then Some([])
    else
      match TakeField(m)
      case None => None
      case Some(f) =>
        match Parse(m[|FieldBytes(f)|..])
        case None => None
        case Some(fields) => Some([f] + fields)
  }

  lemma {:induction false} ParsedIsWellFormed(m: seq<Byte>)
    requires Parse(m).Some?
    ensures MessageBytes(Parse(m).value) == m
    ensures forall i :: 0 <= i < |Parse(m).value| ==> WellFormed(Parse(m).value[i])
    decreases |m|
  {
    hide TakeField, WellFormed, FieldBytes;
    if m != [] {
      var f := TakeField(m).value;
      TakenField(m);
      var n := |FieldBytes(f)|;
      var rest := Parse(m[n..]).value;
      ParsedIsWellFormed(m[n..]);
      assert Parse(m).value == [f] + rest && ([f] + rest)[1..] == rest;
      assert m == m[..n] + m[n..];
    }
  }

  lemma {:induction false} WellFormedIsParsed(fields: seq<Field>)
    requires forall i :: 0 <= i < |fields| ==> WellFormed(fields[i])
    ensures Parse(MessageBytes(fields)) == Some(fields)
  {
    if fields != [] {
      var rest := MessageBytes(fields[1..]);
      FieldIsFound(fields[0], rest);
      WellFormedIsParsed(fields[1..]);
      var m := MessageBytes(fields);
      assert m[|FieldBytes(fields[0])|..] == rest;
      assert [fields[0]] + fields[1..] == fields;
    }
  }

  /** The message is the concatenation of these well-formed fields. */
  predicate IsReading(m: seq<Byte>, fields: seq<Field>) {
    MessageBytes(fields) == m && forall i :: 0 <= i < |fields| ==> WellFormed(fields[i])
  }

  /** A message has at most one reading, and parsing finds it. */
  lemma ParseIsReading(m: seq<Byte>, fields: seq<Field>)
    ensures Parse(m) == Some(fields) <==> IsReading(m, fields)
  {
    if Parse(m) == Some(fields) {
      ParsedIsWellFormed(m);
    }
    if IsReading(m, fields) {
      WellFormedIsParsed(fields);
    }
  }

  /** The only payload with the target number, if there is exactly one. */
  function Selected(fields: Option<seq<Field>>, target: nat): Option<seq<Byte>> {
    if fields.Some? && |Payloads(fields.value, target)| == 1 then Some(Payloads(fields.value, target)[0]) else None
  }

  lemma {:induction false} PayloadsAppend(a: seq<Field>, b: seq<Field>, target: nat)
    ensures Payloads(a + b, target) == Payloads(a, target) + Payloads(b, target)
  {
    if a == [] {
      assert a + b == b;
    } else {
      assert (a + b)[1..] == a[1..] + b;
      PayloadsAppend(a[1..], b, target);
    }
  }

  /** Some field has been read; what is left decides the rest. */
  ghost predicate ReadSoFar(m: seq<Byte>, offset: nat, seen: seq<Field>)
    requires offset <= |m|
  {
    Parse(m) == match Parse(m[offset..]) case None => None case Some(rest) => Some(seen + rest)
  }

  lemma ReadNothing(m: seq<Byte>)
    ensures ReadSoFar(m, 0, [])
  {
    assert m[0..] == m;
    match Parse(m)
    case None =>
    case Some(rest) => assert [] + rest == rest;
  }

  lemma ReadOn(m: seq<Byte>, offset: nat, seen: seq<Field>)
    requires offset < |m| && ReadSoFar(m, offset, seen)
    ensures var taken := TakeField(m[offset..]);
      && (taken.None? ==> Parse(m).None?)
      && (taken.Some? ==>
            && offset + |FieldBytes(taken.value)| <= |m|
            && ReadSoFar(m, offset + |FieldBytes(taken.value)|, seen + [taken.value]))
  {
    hide TakeField, FieldBytes, WellFormed;
    var taken := TakeField(m[offset..]);
    if taken.Some? {
      var n := |FieldBytes(taken.value)|;
      assert m[offset..][n..] == m[offset + n..];
      match Parse(m[offset + n..])
      case None =>
      case Some(rest) => assert seen + ([taken.value] + rest) == seen + [taken.value] + rest;
    }
  }

  /** A second payload with the number cannot be made up for. */
  lemma TwiceIsNone(m: seq<Byte>, offset: nat, seen: seq<Field>, target: nat)
    requires offset <= |m| && ReadSoFar(m, offset, seen) && |Payloads(seen, target)| >= 2
    ensures Selected(Parse(m), target).None?
  {
    match Parse(m[offset..])
    case None =>
    case Some(rest) => PayloadsAppend(seen, rest, target);
  }

  method SkipWireValue(m: seq<Byte>, offset: nat, wireType: nat) returns (next: Option<nat>)
    requires offset <= |m|
    ensures match if wireType == 2 then None else TakeBody(m[offset..], wireType)
      case None => next.None?
      case Some(body) => next == Some(offset + |BodyBytes(body)|)
  {
    if wireType == 0 {
      var v := ReadVarint(m, offset);
      return if v.None? then None else Some(v.value.nextOffset);
    }
    if wireType == 1 { return CheckedAdvance(m, offset, 8); }
    if wireType == 5 { return CheckedAdvance(m, offset, 4); }
    return None;
  }

  function CheckedAdvance(m: seq<Byte>, offset: nat, count: nat): Option<nat> {
    if offset + count > |m| then None else Some(offset + count)
  }

  /** Reading a field is reading its tag, then its value. */
  lemma FieldAt(m: seq<Byte>, offset: nat, tag: Option<Varint>)
    requires offset <= |m| && tag == VarintAt(m, offset)
    ensures tag.None? ==> TakeField(m[offset..]).None?
    ensures tag.Some? ==>
      && offset < tag.value.nextOffset <= |m|
      && var body := TakeBody(m[tag.value.nextOffset..], tag.value.value % 8);
         TakeField(m[offset..]) == if body.None? then None else Some(Field(m[offset..tag.value.nextOffset], body.value))
    ensures tag.Some? ==> Value(m[offset..tag.value.nextOffset]) == tag.value.value
  {
    hide Value, TakeBody, VarintLength, WellFormed, FieldBytes, BodyOk, BodyBytes, WireType;
    var here := m[offset..];
    if tag.Some? {
      var n := tag.value.nextOffset - offset;
      assert here[..n] == m[offset..offset + n];
      assert here[n..] == m[offset + n..];
    }
  }

  /** Reading a length-delimited value is reading its length, then as many bytes. */
  lemma DelimitedAt(m: seq<Byte>, offset: nat, size: Option<Varint>)
    requires offset <= |m| && size == VarintAt(m, offset)
    ensures size.Some? ==> offset < size.value.nextOffset <= |m|
    ensures size.None? || size.value.value > MAX_LENGTH || size.value.nextOffset + size.value.value > |m| ==>
      TakeBody(m[offset..], 2).None?
    ensures size.Some? && size.value.value <= MAX_LENGTH && size.value.nextOffset + size.value.value <= |m| ==>
      TakeBody(m[offset..], 2) == Some(Delimited(
        m[offset..size.value.nextOffset], m[size.value.nextOffset..size.value.nextOffset + size.value.value]))
  {
    hide Value, VarintLength, BodyOk, BodyBytes, WireType;
    var here := m[offset..];
    if size.Some? {
      var n, length := size.value.nextOffset - offset, size.value.value;
      assert here[..n] == m[offset..offset + n];
      if length <= MAX_LENGTH && n + length <= |here| {
        assert here[n..n + length] == m[offset + n..offset + n + length];
      }
    }
  }

  lemma OnePayload(f: Field, target: nat)
    ensures Payloads([f], target) == if f.body.Delimited? && NumberAsRead(f) == target then [f.body.payload] else []
  {
    assert Payloads([f][1..], target) == [];
  }

  /** What is left cannot be read, so nothing is returned. */
  lemma ReadFails(m: seq<Byte>, offset: nat, seen: seq<Field>, target: nat)
    requires offset < |m| && ReadSoFar(m, offset, seen) && TakeField(m[offset..]).None?
    ensures Selected(Parse(m), target).None?
  {
    hide TakeField;
    ReadOn(m, offset, seen);
  }

  /** A length-delimited field has been read from offset to end. */
  lemma ReadDelimited(m: seq<Byte>, offset: nat, seen: seq<Field>, tag: Varint, size: Varint,
      target: nat) returns (f: Field)
    requires offset < |m| && ReadSoFar(m, offset, seen)
    requires VarintAt(m, offset) == Some(tag) && tag.value % 8 == 2 && tag.nextOffset <= |m|
    requires VarintAt(m, tag.nextOffset) == Some(size)
    requires size.value <= MAX_LENGTH && size.nextOffset + size.value <= |m|
    ensures size.nextOffset + size.value <= |m| && ReadSoFar(m, size.nextOffset + size.value, seen + [f])
    ensures Payloads(seen + [f], target) ==
      Payloads(seen, target) +
      (if Rounded(tag.value / 8) == target then [m[size.nextOffset..size.nextOffset + size.value]] else [])
  {
    hide Value, TakeField, TakeBody, Parse, VarintAt, Payloads, ReadSoFar, WellFormed, Rounded;
    FieldAt(m, offset, Some(tag));
    DelimitedAt(m, tag.nextOffset, Some(size));
    f := TakeField(m[offset..]).value;
    ReadOn(m, offset, seen);
    PayloadsAppend(seen, [f], target);
    OnePayload(f, target);
    FieldEnds(m, offset, tag, size, f);
  }

  lemma FieldEnds(m: seq<Byte>, offset: nat, tag: Varint, size: Varint, f: Field)
    requires offset < tag.nextOffset <= size.nextOffset && size.nextOffset + size.value <= |m|
    requires f == Field(m[offset..tag.nextOffset],
      Delimited(m[tag.nextOffset..size.nextOffset], m[size.nextOffset..size.nextOffset + size.value]))
    ensures offset + |FieldBytes(f)| == size.nextOffset + size.value
  {
  }

  /** A field of another wire type has been read. */
  lemma ReadSkipped(m: seq<Byte>, offset: nat, seen: seq<Field>, tag: Varint, target: nat) returns (f: Field)
    requires offset < |m| && ReadSoFar(m, offset, seen)
    requires VarintAt(m, offset) == Some(tag) && tag.value % 8 != 2 && tag.nextOffset <= |m|
    requires TakeBody(m[tag.nextOffset..], tag.value % 8).Some?
    ensures var next := tag.nextOffset + |BodyBytes(TakeBody(m[tag.nextOffset..], tag.value % 8).value)|;
      next <= |m| && next > offset && ReadSoFar(m, next, seen + [f])
    ensures Payloads(seen + [f], target) == Payloads(seen, target)
  {
    hide Value, TakeField, TakeBody, Parse, VarintAt, Payloads, ReadSoFar, WellFormed;
    FieldAt(m, offset, Some(tag));
    TakenBody(m[tag.nextOffset..], tag.value % 8);
    f := TakeField(m[offset..]).value;
    ReadOn(m, offset, seen);
    PayloadsAppend(seen, [f], target);
    OnePayload(f, target);
  }

  method ExtractLengthDelimitedField(m: seq<Byte>, target: nat) returns (r: Option<seq<Byte>>)
    ensures r == Selected(Parse(m), target)
  {
    hide Value, TakeField, TakeBody, BodyBytes, Parse, VarintAt, Payloads, ReadSoFar, Selected, Rounded;
    var offset := 0;
    var found: Option<seq<Byte>> := None;
    ghost var seen: seq<Field> := [];
    ReadNothing(m);
    NoPayloads(target);
    while offset < |m|
      invariant offset <= |m| && ReadSoFar(m, offset, seen)
      invariant Payloads(seen, target) == if found.Some? then [found.value] else []
    {
      ghost var start := offset;
      var tag := ReadVarint(m, offset);
      FieldAt(m, start, tag);
      if tag.None? {
        ReadFails(m, start, seen, target);
        return None;
      }
      offset := tag.value.nextOffset;
      var fieldNumber, wireType := Rounded(tag.value.value / 8), tag.value.value % 8;
      if wireType == 2 {
        var size := ReadVarint(m, offset);
        DelimitedAt(m, offset, size);
        if size.None? {
          ReadFails(m, start, seen, target);
          return None;
        }
        offset := size.value.nextOffset;
        var length := Rounded(size.value.value);
        LengthAsRead(size.value.value);
        var end := offset + length;
        if length > MAX_LENGTH || end > |m| {
          ReadFails(m, start, seen, target);
          return None;
        }
        ghost var f := ReadDelimited(m, start, seen, tag.value, size.value, target);
        seen := seen + [f];
        if fieldNumber == target {
          if found.Some? {
            TwiceIsNone(m, end, seen, target);
            return None;
          }
          found := Some(m[offset..end]);
        }
        offset := end;
      } else {
        var next := SkipWireValue(m, offset, wireType);
        if next.None? {
          ReadFails(m, start, seen, target);
          return None;
        }
        ghost var f := ReadSkipped(m, start, seen, tag.value, target);
        seen := seen + [f];
        offset := next.value;
      }
    }
    AllRead(m, seen, target);
    return found;
  }

  /** Rounding leaves a length that is accepted as it is, and makes none acceptable that was not. */
  lemma LengthAsRead(length: nat)
    ensures length <= MAX_LENGTH ==> Rounded(length) == length
    ensures length > MAX_LENGTH ==> Rounded(length) > MAX_LENGTH
  {
    if length <= MAX_LENGTH {
      SafeIsKept(length);
    } else {
      RoundedStaysAbove(length);
    }
  }

  lemma NoPayloads(target: nat)
    ensures Payloads([], target) == []
  {
  }

  lemma AllRead(m: seq<Byte>, seen: seq<Field>, target: nat)
    requires ReadSoFar(m, |m|, seen)
    ensures Selected(Parse(m), target) == if |Payloads(seen, target)| == 1 then Some(Payloads(seen,
      target)[0]) else None
  {
    assert m[|m|..] == [] && seen + [] == seen;
  }

  /**
   * A payload is returned exactly when the bytes are well-formed fields and it is the one length-delimited
   * value among them whose field number reads as the target.
   */
  lemma ExtractsExactly(m: seq<Byte>, target: nat, payload: seq<Byte>)
    ensures Selected(Parse(m), target) == Some(payload) <==>
      (exists fields :: IsReading(m, fields) && Payloads(fields, target) == [payload])
  {
    if Selected(Parse(m), target) == Some(payload) {
      ParsedIsWellFormed(m);
      assert IsReading(m, Parse(m).value) && Payloads(Parse(m).value, target) == [payload];
    }
    forall fields | IsReading(m, fields)
      ensures Parse(m) == Some(fields)
    {
      WellFormedIsParsed(fields);
    }
  }

  // ---- the encoder of the specification ------------------------------------------------------------

  function EncodeVarint(n: nat): seq<Byte> {
    if n < 0x80 then [n] else [n % 0x80 + 0x80] + EncodeVarint(n / 0x80)
  }

  lemma PowerSteps(n: nat)
    ensures PowerOfTwo(n + 7) == 0x80 * PowerOfTwo(n)
  {
    assert PowerOfTwo(n + 7) == 2 * PowerOfTwo(n + 6);
    assert PowerOfTwo(n + 6) == 2 * PowerOfTwo(n + 5);
    assert PowerOfTwo(n + 5) == 2 * PowerOfTwo(n + 4);
    assert PowerOfTwo(n + 4) == 2 * PowerOfTwo(n + 3);
    assert PowerOfTwo(n + 3) == 2 * PowerOfTwo(n + 2);
    assert PowerOfTwo(n + 2) == 2 * PowerOfTwo(n + 1);
  }

  /** A byte in front shifts the rest up by seven bits. */
  lemma {:induction false} ValueOfFront(first: Byte, rest: seq<Byte>)
    ensures Value([first] + rest) == first % 0x80 + 0x80 * Value(rest)
  {
    var all := [first] + rest;
    if rest == [] {
      assert all[..0] == [];
      assert PowerOfTwo(0) == 1;
    } else {
      var init, last := rest[..|rest| - 1], rest[|rest| - 1];
      assert all[..|all| - 1] == [first] + init;
      ValueOfFront(first, init);
      PowerSteps(7 * (|rest| - 1));
      assert 7 * (|rest| - 1) + 7 == 7 * |rest|;
    }
  }

  /** Up to ten bytes the encoding is a varint, and it reads back as the number. */
  lemma {:induction false} EncodedReadsBack(n: nat, room: nat)
    requires 1 <= room && n < PowerOfTwo(7 * room)
    ensures var bytes := EncodeVarint(n);
      && 1 <= |bytes| <= room && Value(bytes) == n
      && (forall i :: 0 <= i < |bytes| - 1 ==> bytes[i] >= 0x80) && bytes[|bytes| - 1] < 0x80
    decreases room
  {
    if n < 0x80 {
      ValueOfFront(n, []);
      assert [n] + [] == [n];
    } else {
      PowerSteps(7 * (room - 1));
      assert 7 * (room - 1) + 7 == 7 * room;
      assert PowerOfTwo(0) == 1;
      assert room > 1;
      EncodedReadsBack(n / 0x80, room - 1);
      ValueOfFront(n % 0x80 + 0x80, EncodeVarint(n / 0x80));
    }
  }

  /** A field to be encoded: a number with a 64-bit or 32-bit value, a varint, or a payload. */
  datatype Plain = PlainVarint(number: nat, value: nat) | PlainFixed64(number: nat, bytes: seq<Byte>)
                 | PlainFixed32(number: nat, bytes: seq<Byte>) | PlainBytes(number: nat, payload: seq<Byte>)

  predicate Encodable(p: Plain) {
    && p.number < PowerOfTwo(67)
    && match p
       case PlainVarint(_, value) => value < PowerOfTwo(70)
       case PlainFixed64(_, bytes) => |bytes| == 8
       case PlainFixed32(_, bytes) => |bytes| == 4
       case PlainBytes(_, payload) => |payload| <= MAX_LENGTH
  }

  function EncodeField(p: Plain): Field {
    match p
    case PlainVarint(number, value) => Field(EncodeVarint(number * 8), VarintBody(EncodeVarint(value)))
    case PlainFixed64(number, bytes) => Field(EncodeVarint(number * 8 + 1), Fixed64(bytes))
    case PlainBytes(number, payload) => Field(EncodeVarint(number * 8 + 2), Delimited(EncodeVarint(|payload|), payload))
    case PlainFixed32(number, bytes) => Field(EncodeVarint(number * 8 + 5), Fixed32(bytes))
  }

  function EncodeFields(plain: seq<Plain>): seq<Field> {
    seq(|plain|, i requires 0 <= i < |plain| => EncodeField(plain[i]))
  }

  function PlainPayloads(plain: seq<Plain>, target: nat): seq<seq<Byte>> {
    if plain == [] then []
    else
      (if plain[0].PlainBytes? && plain[0].number == target then [plain[0].payload] else [])
      + PlainPayloads(plain[1..], target)
  }

  lemma PowerGrows(n: nat, k: nat)
    ensures PowerOfTwo(n) <= PowerOfTwo(n + k)
  {
    if k > 0 {
      PowerGrows(n, k - 1);
    }
  }

  lemma ThreeSteps(n: nat)
    ensures PowerOfTwo(n + 3) == 8 * PowerOfTwo(n)
  {
    assert PowerOfTwo(n + 3) == 2 * PowerOfTwo(n + 2);
    assert PowerOfTwo(n + 2) == 2 * PowerOfTwo(n + 1);
  }

  lemma SevenSteps(n: nat, p: nat)
    requires PowerOfTwo(n) == p
    ensures PowerOfTwo(n + 7) == 0x80 * p
  {
    PowerSteps(n);
  }

  /** Ten bytes have room for any length, and for a tag with any field number below 2^67. */
  lemma LengthsFit()
    ensures MAX_LENGTH < PowerOfTwo(70) && PowerOfTwo(70) == 8 * PowerOfTwo(67)
  {
    assert PowerOfTwo(0) == 1;
    hide PowerOfTwo;
    SevenSteps(0, 1);
    SevenSteps(7, 0x80);
    SevenSteps(14, 0x4000);
    SevenSteps(21, 0x20_0000);
    SevenSteps(28, 0x1000_0000);
    SevenSteps(35, 0x8_0000_0000);
    SevenSteps(42, 0x400_0000_0000);
    SevenSteps(49, 0x2_0000_0000_0000);
    PowerGrows(56, 14);
    ThreeSteps(67);
  }

  lemma EncodedIsWellFormed(p: Plain)
    requires Encodable(p)
    ensures WellFormed(EncodeField(p)) && FieldNumber(EncodeField(p)) == p.number
  {
    hide Value, EncodeVarint, PowerOfTwo;
    LengthsFit();
    EncodedReadsBack(p.number * 8 + WireType(EncodeField(p).body), MAX_VARINT_BYTES);
    match p
    case PlainVarint(_, value) => EncodedReadsBack(value, MAX_VARINT_BYTES);
    case PlainBytes(_, payload) => EncodedReadsBack(|payload|, MAX_VARINT_BYTES);
    case _ =>
  }

  lemma {:induction false} EncodedPayloads(plain: seq<Plain>, target: nat)
    requires forall i :: 0 <= i < |plain| ==> Encodable(plain[i])
    requires IsDouble(target) && Unmistakable(target)
    ensures Payloads(EncodeFields(plain), target) == PlainPayloads(plain, target)
  {
    hide Rounded, Unmistakable;
    if plain != [] {
      EncodedIsWellFormed(plain[0]);
      EncodedPayloads(plain[1..], target);
      assert EncodeFields(plain)[1..] == EncodeFields(plain[1..]);
      if NumberAsRead(EncodeField(plain[0])) == target {
        OnlyItself(target, plain[0].number);
      }
    }
  }

  lemma EncodedIsParsed(plain: seq<Plain>)
    requires forall i :: 0 <= i < |plain| ==> Encodable(plain[i])
    ensures Parse(MessageBytes(EncodeFields(plain))) == Some(EncodeFields(plain))
  {
    var fields := EncodeFields(plain);
    forall i | 0 <= i < |fields|
      ensures WellFormed(fields[i])
    {
      EncodedIsWellFormed(plain[i]);
    }
    WellFormedIsParsed(fields);
  }

  /** The one payload under a number, if there is exactly one. */
  function OnlyPayload(plain: seq<Plain>, target: nat): Option<seq<Byte>> {
    var payloads := PlainPayloads(plain, target);
    if |payloads| == 1 then Some(payloads[0]) else None
  }

  function ExtractEncoded(plain: seq<Plain>, target: nat): Option<seq<Byte>> {
    Selected(Parse(MessageBytes(EncodeFields(plain))), target)
  }

  /**
   * Extraction undoes encoding: the one payload under a number comes back unchanged, and otherwise nothing
   * does, for every target below 2^53 and every odd multiple of two below 2^54.
   */
  lemma ExtractInvertsEncode(plain: seq<Plain>, target: nat)
    requires forall i :: 0 <= i < |plain| ==> Encodable(plain[i])
    requires IsDouble(target) && Unmistakable(target)
    ensures ExtractEncoded(plain, target) == OnlyPayload(plain, target)
  {
    EncodedIsParsed(plain);
    EncodedPayloads(plain, target);
  }

  /** For every other target there is a message with a single field of another number, which is taken for it. */
  lemma RoundingMisleads(target: nat) returns (plain: seq<Plain>)
    requires IsDouble(target) && !Unmistakable(target) && target < PowerOfTwo(67)
    ensures forall i :: 0 <= i < |plain| ==> Encodable(plain[i])
    ensures ExtractEncoded(plain, target) == Some([]) && OnlyPayload(plain, target) == None
  {
    hide Rounded, Unmistakable, EncodeField;
    NextIsMistaken(target);
    PowerIsEven(67);
    var field := PlainBytes(target + 1, []);
    plain := [field];
    assert Encodable(field);
    EncodedIsParsed(plain);
    EncodedIsWellFormed(field);
    assert EncodeFields(plain) == [EncodeField(field)];
    OnePayload(EncodeField(field), target);
    assert EncodeField(field).body == Delimited(EncodeVarint(0), []) by { BytesBody(field); }
    assert PlainPayloads(plain[1..], target) == [];
  }

  lemma BytesBody(p: Plain)
    requires p.PlainBytes?
    ensures EncodeField(p).body == Delimited(EncodeVarint(|p.payload|), p.payload)
  {
  }

  lemma PowerIsEven(n: nat)
    ensures n > 0 ==> PowerOfTwo(n) % 2 == 0
  {
  }

  /** So those are exactly the targets for which extraction undoes encoding. */
  lemma ExtractionIsExactIff(target: nat)
    requires IsDouble(target) && target < PowerOfTwo(67)
    ensures Unmistakable(target) <==>
      forall plain :: (forall i :: 0 <= i < |plain| ==> Encodable(plain[i])) ==>
        ExtractEncoded(plain, target) == OnlyPayload(plain, target)
  {
    hide Unmistakable, IsDouble, Encodable, ExtractEncoded, OnlyPayload, PowerOfTwo;
    if Unmistakable(target) {
      forall plain: seq<Plain> | forall i :: 0 <= i < |plain| ==> Encodable(plain[i])
        ensures ExtractEncoded(plain, target) == OnlyPayload(plain, target)
      {
        ExtractInvertsEncode(plain, target);
      }
    } else {
      var plain := RoundingMisleads(target);
    }
  }

  /** Ten bytes carry seventy bits, and all of them are kept: nothing is cut off at sixty-four. */
  lemma VarintKeepsSeventyBits(n: nat)
    requires n < PowerOfTwo(70)
    ensures VarintAt(EncodeVarint(n), 0) == Some(Varint(n, |EncodeVarint(n)|))
  {
    var bytes := EncodeVarint(n);
    EncodedReadsBack(n, MAX_VARINT_BYTES);
    VarintIsFound(bytes, |bytes|, MAX_VARINT_BYTES);
    assert bytes[0..] == bytes && bytes[0..|bytes|] == bytes;
  }

  // ---- the unary gRPC frame --------------------------------------------------------------------------

  datatype GrpcFrame = GrpcFrame(compressed: bool, payload: seq<Byte>)

  const MAX_UINT32: nat := 0xFFFF_FFFF

  function UInt32BE(n: nat): seq<Byte>
    requires n <= MAX_UINT32
  {
    var high, low := n / 0x1_0000, n % 0x1_0000;
    [high / 0x100, high % 0x100, low / 0x100, low % 0x100]
  }

  function ReadUInt32BE(b: seq<Byte>): nat
    requires |b| >= 4
  {
    (b[0] as nat * 0x100 + b[1]) * 0x1_0000 + (b[2] as nat * 0x100 + b[3])
  }

  function FrameBytes(f: GrpcFrame): seq<Byte>
    requires |f.payload| <= MAX_UINT32
  {
    [if f.compressed then 1 else 0] + UInt32BE(|f.payload|) + f.payload
  }

  /** A payload too long for the length field is an error. */
  method EncodeUnaryGrpcFrame(payload: seq<Byte>, compressed: bool) returns (result: Option<array<Byte>>)
    ensures result.None? <==> |payload| > MAX_UINT32
    ensures result.Some? ==> result.value[..] == FrameBytes(GrpcFrame(compressed, payload))
  {
    if |payload| > MAX_UINT32 { return None; }
    var frame := new Byte[5 + |payload|];
    var header := UInt32BE(|payload|);
    frame[0] := if compressed then 1 else 0;
    frame[1], frame[2], frame[3], frame[4] := header[0], header[1], header[2], header[3];
    for i := 0 to |payload|
      invariant frame[..5] == FrameBytes(GrpcFrame(compressed, payload))[..5]
      invariant frame[5..5 + i] == payload[..i]
    {
      frame[5 + i] := payload[i];
    }
    assert frame[..] == frame[..5] + frame[5..];
    return Some(frame);
  }

  function DecodeUnaryGrpcFrame(body: seq<Byte>): Option<GrpcFrame> {
    if |body| < 5 then None
    else if body[0] != 0 && body[0] != 1 then None
    else if ReadUInt32BE(body[1..]) != |body| - 5 then None
    else Some(GrpcFrame(body[0] == 1, body[5..]))
  }

  lemma SplitsWord(high: nat, low: nat)
    requires low < 0x1_0000
    ensures (high * 0x1_0000 + low) / 0x1_0000 == high && (high * 0x1_0000 + low) % 0x1_0000 == low
  {
  }

  lemma SplitsHalf(high: nat, low: nat)
    requires low < 0x100
    ensures (high * 0x100 + low) / 0x100 == high && (high * 0x100 + low) % 0x100 == low
  {
  }

  lemma UInt32OfBytes(n: nat, b: seq<Byte>)
    requires n <= MAX_UINT32 && UInt32BE(n) <= b
    ensures ReadUInt32BE(b) == n
  {
    var bytes := UInt32BE(n);
    assert b[0] == bytes[0] && b[1] == bytes[1] && b[2] == bytes[2] && b[3] == bytes[3];
  }

  lemma BytesOfUInt32(b: seq<Byte>)
    requires |b| >= 4
    ensures ReadUInt32BE(b) <= MAX_UINT32 && UInt32BE(ReadUInt32BE(b)) == b[..4]
  {
    var high, low := b[0] as nat * 0x100 + b[1], b[2] as nat * 0x100 + b[3];
    SplitsWord(high, low);
    SplitsHalf(b[0], b[1]);
    SplitsHalf(b[2], b[3]);
  }

  /** A body decodes exactly when it is the encoding of a frame, and then to that frame. */
  lemma DecodeInvertsEncode(body: seq<Byte>, f: GrpcFrame)
    ensures DecodeUnaryGrpcFrame(body) == Some(f) <==> |f.payload| <= MAX_UINT32 && body == FrameBytes(f)
  {
    if DecodeUnaryGrpcFrame(body) == Some(f) {
      var n := |f.payload|;
      BytesOfUInt32(body[1..]);
      assert body == [body[0]] + body[1..][..4] + body[5..];
    }
    if |f.payload| <= MAX_UINT32 && body == FrameBytes(f) {
      UInt32OfBytes(|f.payload|, body[1..]);
    }
  }
}
