/**
 The Cast v2 envelope on the wire: base-128 varints, a six-field protobuf message, and
 frames with a four-byte big-endian length (Protocol Buffers Encoding, sections "Base 128
 Varints", "Message Structure" and "Last One Wins").
 */
module CastWire {
  import opened Wrappers

  const MAX_UINT64 := 0x1_0000_0000_0000_0000
  const MAX_VARINT_LEN64 := 10
  const MAX_CAST_V2_FRAME := 0x40_0000

  // ---- Varints -------------------------------------------------------------------------

  function Pow128(i: nat): nat {
    if i == 0 then 1 else 128 * Pow128(i - 1)
  }

  /** encoding/binary's AppendUvarint(nil, x): seven bits a byte, least significant first. */
  function Varint(x: nat): (r: Bytes)
    ensures |r| > 0
  {
    if x < 128 then [x] else [x % 128 + 128] + Varint(x / 128)
  }

  datatype Decoded = Decoded(value: nat, used: int)

  /** encoding/binary's Uvarint: the value and the bytes read; zero bytes when the input is too short,
      a negative count when the value overflows 64 bits. */
  function Uvarint(buf: Bytes): Decoded {
    UvarintFrom(buf, 0, 0)
  }

  // Seven bits at the place of byte i.
  function Shifted(digit: nat, i: nat): nat {
    digit * Pow128(i)
  }

  // The bytes from index i on; x is the value of those before.  The bit that a tenth byte would shift
  // out is never part of a result.
  function UvarintFrom(rest: Bytes, i: nat, x: nat): Decoded {
    if rest == [] then Decoded(0, 0)
    else if i == MAX_VARINT_LEN64 then Decoded(0, -(i + 1))
    else if rest[0] < 128 then
      if i == MAX_VARINT_LEN64 - 1 && rest[0] > 1 then Decoded(0, -(i + 1)) else Decoded(x + Shifted(rest[0], i), i + 1)
    else UvarintFrom(rest[1..], i + 1, x + Shifted(rest[0] - 128, i))
  }

  lemma Pow128Values()
    ensures Pow128(9) == 0x8000_0000_0000_0000 && Pow128(10) == 128 * 0x8000_0000_0000_0000
  {
    assert Pow128(4) == 0x1000_0000;
    assert Pow128(8) == 0x100_0000_0000_0000;
  }

  lemma {:induction false} Pow128Grows(i: nat, j: nat)
    requires i <= j
    ensures 1 <= Pow128(i) <= Pow128(j)
    decreases j
  {
    if i < j { Pow128Grows(i, j - 1); }
    else if i > 0 { Pow128Grows(i - 1, i - 1); }
  }

  /** What Uvarint returns fits: a positive count lies within the input and within ten bytes, and its value
      is a 64-bit one. */
  lemma {:induction false} UvarintFits(rest: Bytes, i: nat, x: nat)
    requires i <= MAX_VARINT_LEN64 && x < Pow128(i)
    ensures var d := UvarintFrom(rest, i, x);
            if d.used > 0 then i < d.used <= i + |rest| && d.used <= MAX_VARINT_LEN64 && d.value < MAX_UINT64
            else d.value == 0
  {
    Pow128Values();
    if rest != [] && i < MAX_VARINT_LEN64 {
      var p := Pow128(i);
      assert Pow128(i + 1) == 128 * p;
      if rest[0] < 128 {
        assert rest[0] * p <= 127 * p;
        if i < 9 { Pow128Grows(i + 1, 9); }
      } else {
        assert (rest[0] - 128) * p <= 127 * p;
        UvarintFits(rest[1..], i + 1, x + (rest[0] - 128) * p);
      }
    }
  }

  /** Bytes after a complete varint do not change what is read. */
  lemma {:induction false} UvarintPrefix(rest: Bytes, tail: Bytes, i: nat, x: nat)
    requires UvarintFrom(rest, i, x).used > 0
    ensures UvarintFrom(rest + tail, i, x) == UvarintFrom(rest, i, x)
  {
    assert (rest + tail)[0] == rest[0];
    if rest[0] >= 128 {
      assert (rest + tail)[1..] == rest[1..] + tail;
      UvarintPrefix(rest[1..], tail, i + 1, x + (rest[0] - 128) * Pow128(i));
    }
  }

  lemma Regroup(y: nat, p: nat)
    ensures y * p == (y / 128) * (128 * p) + (y % 128) * p
    ensures y >= 128 ==> y * p >= 128 * p
  {
    assert y == 128 * (y / 128) + y % 128;
  }

  // The first byte of a longer varint.
  lemma FirstByte(y: nat, tail: Bytes, i: nat, x: nat)
    requires y >= 128
    ensures UvarintFrom(Varint(y) + tail, i, x)
      == if i == MAX_VARINT_LEN64 then Decoded(0, -(i + 1))
         else UvarintFrom(Varint(y / 128) + tail, i + 1, x + (y % 128) * Pow128(i))
  {
    assert (Varint(y) + tail)[0] == y % 128 + 128;
    assert (Varint(y) + tail)[1..] == Varint(y / 128) + tail;
  }

  lemma LastByte(y: nat, tail: Bytes, i: nat, x: nat)
    requires y < 128 && i <= 9 && (i == 9 ==> y <= 1)
    ensures UvarintFrom(Varint(y) + tail, i, x) == Decoded(x + y * Pow128(i), i + 1)
  {
    assert Varint(y) + tail == [y] + tail;
  }

  // A tenth byte is the last, and is one.
  lemma TenBytesAtMost(y: nat, i: nat)
    requires i <= 9 && y * Pow128(i) < MAX_UINT64
    ensures i == 9 ==> y <= 1
    ensures y >= 128 ==> i < 9 && (y / 128) * Pow128(i + 1) < MAX_UINT64
  {
    Pow128Values();
    Regroup(y, Pow128(i));
    assert Pow128(i + 1) == 128 * Pow128(i);
  }

  lemma {:induction false} VarintFrom(y: nat, tail: Bytes, i: nat, x: nat)
    requires i <= 9 && (i > 0 ==> y > 0)
    requires y * Pow128(i) < MAX_UINT64
    ensures UvarintFrom(Varint(y) + tail, i, x) == Decoded(x + y * Pow128(i), i + |Varint(y)|)
    ensures i + |Varint(y)| <= MAX_VARINT_LEN64
    decreases y
  {
    TenBytesAtMost(y, i);
    if y < 128 {
      LastByte(y, tail, i, x);
    } else {
      var p := Pow128(i);
      FirstByte(y, tail, i, x);
      VarintFrom(y / 128, tail, i + 1, x + (y % 128) * p);
      Regroup(y, p);
      assert Pow128(i + 1) == 128 * p;
    }
  }

  /** Every 64-bit value survives the varint coding, whatever follows it, in at most ten bytes. */
  lemma VarintRoundTrip(x: nat, tail: Bytes)
    requires x < MAX_UINT64
    ensures Uvarint(Varint(x) + tail) == Decoded(x, |Varint(x)|)
    ensures |Varint(x)| <= MAX_VARINT_LEN64
  {
    VarintFrom(x, tail, 0, 0);
  }

  // ---- The envelope --------------------------------------------------------------------

  datatype Envelope = Envelope(source: Bytes, destination: Bytes, topic: Bytes, payload: Bytes)

  const BLANK := Envelope([], [], [], [])

  // The length of a Go string is an int.
  predicate Fits(e: Envelope) {
    |e.source| < 0x8000_0000_0000_0000 && |e.destination| < 0x8000_0000_0000_0000 &&
    |e.topic| < 0x8000_0000_0000_0000 && |e.payload| < 0x8000_0000_0000_0000
  }

  predicate Complete(e: Envelope) {
    e.source != [] && e.destination != [] && e.topic != []
  }

  function AppendVarintField(dst: Bytes, field: nat, value: nat): Bytes {
    dst + Varint(field * 8) + Varint(value)
  }

  function AppendBytesField(dst: Bytes, field: nat, value: Bytes): Bytes {
    dst + Varint(field * 8 + 2) + Varint(|value|) + value
  }

  function Marshal(e: Envelope): Bytes {
    var out := AppendVarintField([], 1, 0);
    var out := AppendBytesField(out, 2, e.source);
    var out := AppendBytesField(out, 3, e.destination);
    var out := AppendBytesField(out, 4, e.topic);
    var out := AppendVarintField(out, 5, 0);
    AppendBytesField(out, 6, e.payload)
  }

  datatype WireError =
    | InvalidKey
    | InvalidVarint(field: nat)
    | InvalidBytes(field: nat)
    | Truncated
    | UnsupportedWire(wire: nat)
    | Incomplete

  // One field of a message; only length-delimited ones carry something an envelope keeps.
  datatype Field = Number(num: nat, n: nat) | Fixed(num: nat) | Text(num: nat, value: Bytes)

  // The first field of the data, and what follows it.
  function ParseField(data: Bytes): Result<(Field, Bytes), WireError> {
    UvarintFits(data, 0, 0);
    var key := Uvarint(data);
    if key.used <= 0 then Err(InvalidKey) else ParseValue(key.value / 8, key.value % 8, data[key.used..])
  }

  function ParseValue(field: nat, wire: nat, data: Bytes): Result<(Field, Bytes), WireError> {
    UvarintFits(data, 0, 0);
    var d := Uvarint(data);
    match wire
    case 0 => if d.used <= 0 then Err(InvalidVarint(field)) else Ok((Number(field, d.value), data[d.used..]))
    case 1 => if |data| < 8 then Err(Truncated) else Ok((Fixed(field), data[8..]))
    case 2 =>
      if d.used <= 0 || d.value > |data| - d.used then Err(InvalidBytes(field))
      else Ok((Text(field, data[d.used..d.used + d.value]), data[d.used + d.value..]))
    case 5 => if |data| < 4 then Err(Truncated) else Ok((Fixed(field), data[4..]))
    case _ => Err(UnsupportedWire(wire))
  }

  lemma ParseFieldShrinks(data: Bytes)
    requires ParseField(data).Ok?
    ensures |ParseField(data).value.1| < |data|
  {
    UvarintFits(data, 0, 0);
    var rest := data[Uvarint(data).used..];
    UvarintFits(rest, 0, 0);
  }

  // Setting a field of the envelope; any other field is skipped.
  function Put(e: Envelope, f: Field): Envelope {
    match f
    case Number(_, _) => e
    case Fixed(_) => e
    case Text(num, value) =>
      if num == 2 then e.(source := value)
      else if num == 3 then e.(destination := value)
      else if num == 4 then e.(topic := value)
      else if num == 6 then e.(payload := value)
      else e
  }

  // The field loop, from an envelope filled so far.
  function Fields(data: Bytes, e: Envelope): Result<Envelope, WireError>
    decreases |data|
  {
    if data == [] then Ok(e)
    else
      match ParseField(data)
      case Err(error) => Err(error)
      case Ok((f, rest)) => ParseFieldShrinks(data); Fields(rest, Put(e, f))
  }

  function Unmarshal(data: Bytes): Result<Envelope, WireError> {
    match Fields(data, BLANK)
    case Err(error) => Err(error)
    case Ok(e) => if Complete(e) then Ok(e) else Err(Incomplete)
  }

  lemma FieldsStep(data: Bytes, e: Envelope, f: Field, rest: Bytes)
    requires data != [] && ParseField(data) == Ok((f, rest))
    ensures |rest| < |data| && Fields(data, e) == Fields(rest, Put(e, f))
  {
    ParseFieldShrinks(data);
  }

  lemma FieldsFail(data: Bytes, e: Envelope, error: WireError)
    requires data != [] && ParseField(data) == Err(error)
    ensures Fields(data, e) == Err(error)
  {
  }

  /** The loop of unmarshalCastV2Envelope. */
  method UnmarshalEnvelope(input: Bytes) returns (r: Result<Envelope, WireError>)
    ensures r == Unmarshal(input)
  {
    var data, out := input, BLANK;
    while |data| > 0
      invariant Fields(data, out) == Fields(input, BLANK)
      decreases |data|
    {
      ghost var before := data;
      UvarintFits(data, 0, 0);
      var key := Uvarint(data);
      if key.used <= 0 {
        FieldsFail(before, out, InvalidKey);
        return Err(InvalidKey);
      }
      data := data[key.used..];
      var field, wire := key.value / 8, key.value % 8;
      var value, error := UnmarshalValue(data, field, wire);
      if error.Some? {
        FieldsFail(before, out, error.value);
        return Err(error.value);
      }
      FieldsStep(before, out, value.0, value.1);
      data := value.1;
      if value.0.Text? {
        if field == 2 { out := out.(source := value.0.value); }
        else if field == 3 { out := out.(destination := value.0.value); }
        else if field == 4 { out := out.(topic := value.0.value); }
        else if field == 6 { out := out.(payload := value.0.value); }
      }
    }
    if out.source == [] || out.destination == [] || out.topic == [] { return Err(Incomplete); }
    return Ok(out);
  }

  // The switch on the wire type: the value of a field and the bytes after it, or an error.
  method UnmarshalValue(data: Bytes, field: nat, wire: nat) returns (value: (Field, Bytes), error: Option<WireError>)
    ensures match ParseValue(field, wire, data)
            case Ok(v) => error == None && value == v && (v.0.Text? ==> v.0.num == field)
            case Err(e) => error == Some(e)
  {
    value, error := (Fixed(field), data), None;
    UvarintFits(data, 0, 0);
    if wire == 0 {
      var d := Uvarint(data);
      if d.used <= 0 { return value, Some(InvalidVarint(field)); }
      value := (Number(field, d.value), data[d.used..]);
    } else if wire == 2 {
      var d := Uvarint(data);
      if d.used <= 0 || d.value > |data| - d.used { return value, Some(InvalidBytes(field)); }
      value := (Text(field, data[d.used..d.used + d.value]), data[d.used + d.value..]);
    } else if wire == 1 {
      if |data| < 8 { return value, Some(Truncated); }
      value := (Fixed(field), data[8..]);
    } else if wire == 5 {
      if |data| < 4 { return value, Some(Truncated); }
      value := (Fixed(field), data[4..]);
    } else {
      return value, Some(UnsupportedWire(wire));
    }
  }

  // ---- Composition of messages ---------------------------------------------------------

  lemma ParseFieldAppend(a: Bytes, b: Bytes)
    requires ParseField(a).Ok?
    ensures ParseField(a + b) == Ok((ParseField(a).value.0, ParseField(a).value.1 + b))
  {
    UvarintFits(a, 0, 0);
    UvarintPrefix(a, b, 0, 0);
    var key := Uvarint(a);
    var rest := a[key.used..];
    assert (a + b)[key.used..] == rest + b;
    ParseValueAppend(key.value / 8, key.value % 8, rest, b);
  }

  lemma SliceAppend(a: Bytes, b: Bytes, i: nat, j: nat)
    requires i <= j <= |a|
    ensures (a + b)[i..j] == a[i..j] && (a + b)[j..] == a[j..] + b
  {
  }

  lemma ParseValueAppend(field: nat, wire: nat, a: Bytes, b: Bytes)
    requires ParseValue(field, wire, a).Ok?
    ensures ParseValue(field, wire, a + b) ==
            Ok((ParseValue(field, wire, a).value.0, ParseValue(field, wire, a).value.1 + b))
  {
    UvarintFits(a, 0, 0);
    var d := Uvarint(a);
    if wire == 0 {
      UvarintPrefix(a, b, 0, 0);
      SliceAppend(a, b, 0, d.used);
    } else if wire == 2 {
      UvarintPrefix(a, b, 0, 0);
      SliceAppend(a, b, d.used, d.used + d.value);
    } else {
      SliceAppend(a, b, 0, if wire == 1 then 8 else 4);
    }
  }

  /** The loop over a + b, where a is a complete sequence of fields, goes on over b from what a gave. */
  lemma {:induction false} FieldsCompose(a: Bytes, b: Bytes, e: Envelope)
    requires Fields(a, e).Ok?
    ensures Fields(a + b, e) == Fields(b, Fields(a, e).value)
    decreases |a|
  {
    if a == [] {
      assert a + b == b;
    } else {
      ParseFieldAppend(a, b);
      ParseFieldShrinks(a);
      var (f, rest) := ParseField(a).value;
      FieldsCompose(rest, b, Put(e, f));
      ParseFieldShrinks(a + b);
    }
  }

  // The fields of a message, in order.
  function FieldList(data: Bytes): Result<seq<Field>, WireError>
    decreases |data|
  {
    if data == [] then Ok([])
    else
      match ParseField(data)
      case Err(error) => Err(error)
      case Ok((f, rest)) =>
        ParseFieldShrinks(data);
        match FieldList(rest)
        case Err(error) => Err(error)
        case Ok(fs) => Ok([f] + fs)
  }

  // The last value that a list of fields gives to a field number, or the one before.
  function LastText(fs: seq<Field>, num: nat, before: Bytes): Bytes {
    if fs == [] then before
    else LastText(fs[1..], num, if fs[0].Text? && fs[0].num == num then fs[0].value else before)
  }

  function Collect(fs: seq<Field>, e: Envelope): Envelope {
    Envelope(LastText(fs, 2, e.source), LastText(fs, 3, e.destination), LastText(fs, 4, e.topic),
        LastText(fs, 6, e.payload))
  }

  /** The parser is last-one-wins: it succeeds exactly on complete field sequences, and each part of the envelope
      is the last length-delimited value of its field number. */
  lemma {:induction false} LastOneWins(data: Bytes, e: Envelope)
    ensures match FieldList(data)
            case Err(error) => Fields(data, e) == Err(error)
            case Ok(fs) => Fields(data, e) == Ok(Collect(fs, e))
    decreases |data|
  {
    if data != [] && ParseField(data).Ok? {
      var (f, rest) := ParseField(data).value;
      ParseFieldShrinks(data);
      LastOneWins(rest, Put(e, f));
      if FieldList(rest).Ok? {
        var fs := FieldList(rest).value;
        assert ([f] + fs)[1..] == fs;
      }
    }
  }

  // A field the envelope does not keep.
  predicate Foreign(f: Field) {
    f.Text? ==> f.num != 2 && f.num != 3 && f.num != 4 && f.num != 6
  }

  lemma {:induction false} ForeignChangesNothing(data: Bytes, e: Envelope)
    requires FieldList(data).Ok? && forall f :: f in FieldList(data).value ==> Foreign(f)
    ensures Fields(data, e) == Ok(e)
    decreases |data|
  {
    if data != [] {
      var (f, rest) := ParseField(data).value;
      ParseFieldShrinks(data);
      assert FieldList(data).value == [f] + FieldList(rest).value;
      assert f in FieldList(data).value;
      ForeignChangesNothing(rest, e);
    }
  }

  lemma ForeignFieldsBetween(a: Bytes, u: Bytes, b: Bytes, e: Envelope)
    requires Fields(a, e).Ok?
    requires FieldList(u).Ok? && forall f :: f in FieldList(u).value ==> Foreign(f)
    ensures Fields(a + (u + b), e) == Fields(a + b, e)
  {
    FieldsCompose(a, b, e);
    FieldsCompose(a, u + b, e);
    ForeignChangesNothing(u, Fields(a, e).value);
    FieldsCompose(u, b, Fields(a, e).value);
  }

  /** Fields that the envelope does not keep may stand at any field boundary without effect, on good and on bad
      input. */
  lemma UnknownFieldsAreSkipped(a: Bytes, u: Bytes, b: Bytes)
    requires FieldList(a).Ok?
    requires FieldList(u).Ok? && forall f :: f in FieldList(u).value ==> Foreign(f)
    ensures Unmarshal(a + u + b) == Unmarshal(a + b)
  {
    CompleteFieldsParse(a, BLANK);
    ForeignFieldsBetween(a, u, b, BLANK);
    assert a + u + b == a + (u + b);
    SameFields(a + u + b, a + b);
  }

  lemma CompleteFieldsParse(data: Bytes, e: Envelope)
    requires FieldList(data).Ok?
    ensures Fields(data, e).Ok?
  {
    LastOneWins(data, e);
  }

  lemma SameFields(a: Bytes, b: Bytes)
    requires Fields(a, BLANK) == Fields(b, BLANK)
    ensures Unmarshal(a) == Unmarshal(b)
  {
  }

  // ---- Round trips ---------------------------------------------------------------------

  lemma TextField(num: nat, value: Bytes, rest: Bytes)
    requires num < 16 && |value| < MAX_UINT64
    ensures ParseField(AppendBytesField([], num, value) + rest) == Ok((Text(num, value), rest))
  {
    var key := num * 8 + 2;
    var body := Varint(|value|) + (value + rest);
    assert AppendBytesField([], num, value) + rest == Varint(key) + body;
    VarintRoundTrip(key, body);
    assert (Varint(key) + body)[|Varint(key)|..] == body;
    VarintRoundTrip(|value|, value + rest);
    TextValue(num, Varint(|value|), value, rest);
  }

  lemma TextValue(num: nat, digits: Bytes, value: Bytes, rest: Bytes)
    requires digits != [] && Uvarint(digits + (value + rest)) == Decoded(|value|, |digits|)
    ensures ParseValue(num, 2, digits + (value + rest)) == Ok((Text(num, value), rest))
  {
    Sliced(digits, value, rest);
    TextAfter(num, digits + (value + rest), |digits|, |value|);
  }

  lemma Sliced(a: Bytes, b: Bytes, c: Bytes)
    ensures var all := a + (b + c); all[|a|..|a| + |b|] == b && all[|a| + |b|..] == c
  {
  }

  // A length that fits is followed by as many bytes of text.
  lemma TextAfter(num: nat, data: Bytes, used: nat, length: nat)
    requires 0 < used && used + length <= |data| && Uvarint(data) == Decoded(length, used)
    ensures ParseValue(num, 2, data) == Ok((Text(num, data[used..used + length]), data[used + length..]))
  {
  }

  lemma NumberField(num: nat, value: nat, rest: Bytes)
    requires num < 16 && value < MAX_UINT64
    ensures ParseField(AppendVarintField([], num, value) + rest) == Ok((Number(num, value), rest))
  {
    var key := num * 8;
    var data := AppendVarintField([], num, value) + rest;
    assert data == Varint(key) + (Varint(value) + rest);
    VarintRoundTrip(key, Varint(value) + rest);
    assert data[|Varint(key)|..] == Varint(value) + rest;
    VarintRoundTrip(value, rest);
    assert (Varint(value) + rest)[|Varint(value)|..] == rest;
  }

  // If each byte string is one field followed by the next byte string, the first is the list of those fields.
  lemma {:induction false} FieldChain(d: seq<Bytes>, f: seq<Field>)
    requires |d| == |f| + 1 && d[|f|] == []
    requires forall i :: 0 <= i < |f| ==> d[i] != [] && ParseField(d[i]) == Ok((f[i], d[i + 1]))
    ensures FieldList(d[0]) == Ok(f)
  {
    if f != [] {
      FieldChain(d[1..], f[1..]);
      assert f == [f[0]] + f[1..];
    }
  }

  function SixFields(e: Envelope): seq<Field> {
    [Number(1, 0), Text(2, e.source), Text(3, e.destination), Text(4, e.topic), Number(5, 0), Text(6, e.payload)]
  }

  // What is left of a marshalled envelope after each of its fields.
  function Tails(e: Envelope): seq<Bytes> {
    var d5 := AppendBytesField([], 6, e.payload) + [];
    var d4 := AppendVarintField([], 5, 0) + d5;
    var d3 := AppendBytesField([], 4, e.topic) + d4;
    var d2 := AppendBytesField([], 3, e.destination) + d3;
    var d1 := AppendBytesField([], 2, e.source) + d2;
    [AppendVarintField([], 1, 0) + d1, d1, d2, d3, d4, d5, []]
  }

  lemma MarshalIsTails(e: Envelope)
    ensures Marshal(e) == Tails(e)[0]
  {
  }

  lemma TailsChain(e: Envelope, i: nat)
    requires Fits(e) && i < 6
    ensures Tails(e)[i] != [] && ParseField(Tails(e)[i]) == Ok((SixFields(e)[i], Tails(e)[i + 1]))
  {
    var d := Tails(e);
    if i == 0 { NumberField(1, 0, d[1]); }
    else if i == 1 { TextField(2, e.source, d[2]); }
    else if i == 2 { TextField(3, e.destination, d[3]); }
    else if i == 3 { TextField(4, e.topic, d[4]); }
    else if i == 4 { NumberField(5, 0, d[5]); }
    else { TextField(6, e.payload, d[6]); }
  }

  /** A marshalled envelope is the six fields of the message, in order: protocol version 0, source, destination,
      namespace, payload type 0 and payload. */
  lemma MarshalLayout(e: Envelope)
    requires Fits(e)
    ensures FieldList(Marshal(e)) == Ok(SixFields(e))
  {
    forall i: nat | i < 6
      ensures Tails(e)[i] != [] && ParseField(Tails(e)[i]) == Ok((SixFields(e)[i], Tails(e)[i + 1]))
    {
      TailsChain(e, i);
    }
    FieldChain(Tails(e), SixFields(e));
    MarshalIsTails(e);
  }

  lemma LastTextStep(f: Field, fs: seq<Field>, num: nat, before: Bytes)
    ensures LastText([f] + fs, num, before) == LastText(fs, num, if f.Text? && f.num == num then f.value else before)
  {
    assert ([f] + fs)[1..] == fs;
  }

  lemma SixTexts(e: Envelope, num: nat)
    ensures LastText(SixFields(e), num, []) ==
            if num == 2 then e.source else if num == 3 then e.destination
            else if num == 4 then e.topic else if num == 6 then e.payload else []
  {
    var f6 := [Text(6, e.payload)];
    var f5 := [Number(5, 0)] + f6;
    var f4 := [Text(4, e.topic)] + f5;
    var f3 := [Text(3, e.destination)] + f4;
    var f2 := [Text(2, e.source)] + f3;
    assert SixFields(e) == [Number(1, 0)] + f2;
    LastTextStep(Number(1, 0), f2, num, []);
    LastTextStep(Text(2, e.source), f3, num, []);
    var b2 := if num == 2 then e.source else [];
    LastTextStep(Text(3, e.destination), f4, num, b2);
    var b3 := if num == 3 then e.destination else b2;
    LastTextStep(Text(4, e.topic), f5, num, b3);
    var b4 := if num == 4 then e.topic else b3;
    LastTextStep(Number(5, 0), f6, num, b4);
  }

  lemma FieldsOfMarshal(e: Envelope)
    requires Fits(e)
    ensures Fields(Marshal(e), BLANK) == Ok(e)
  {
    MarshalLayout(e);
    LastOneWins(Marshal(e), BLANK);
    SixTexts(e, 2);
    SixTexts(e, 3);
    SixTexts(e, 4);
    SixTexts(e, 6);
  }

  /** Unmarshalling a marshalled envelope gives it back if and only if source, destination and namespace are not
      empty; otherwise the envelope is refused as incomplete. */
  lemma EnvelopeRoundTrip(e: Envelope)
    requires Fits(e)
    ensures Unmarshal(Marshal(e)) ==
      if e.source != [] && e.destination != [] && e.topic != [] then Ok(e) else Err(Incomplete)
  {
    FieldsOfMarshal(e);
  }

  /** Different envelopes never share a wire form. */
  lemma MarshalInjective(d: Envelope, e: Envelope)
    requires Fits(d) && Fits(e) && Marshal(d) == Marshal(e)
    ensures d == e
  {
    FieldsOfMarshal(d);
    FieldsOfMarshal(e);
  }

  // ---- Frames on a stream --------------------------------------------------------------

  datatype FrameError =
    | Eof
    | UnexpectedEof
    | InvalidSize(size: nat)
    | WriteFailed
    | Malformed(error: WireError)

  function BigEndian32(n: nat): Bytes
    requires n < 0x1_0000_0000
  {
    [n / 0x100_0000, n / 0x1_0000 % 256, n / 256 % 256, n % 256]
  }

  function FromBigEndian32(b: Bytes): nat
    requires |b| == 4
  {
    var b0: int, b1: int, b2: int := b[0], b[1], b[2];
    b0 * 0x100_0000 + b1 * 0x1_0000 + b2 * 256 + b[3]
  }

  function WriteFrame(e: Envelope): Result<Bytes, FrameError> {
    var payload := Marshal(e);
    if |payload| == 0 || |payload| > MAX_CAST_V2_FRAME then Err(InvalidSize(|payload|))
    else Ok(BigEndian32(|payload|) + payload)
  }

  // io.ReadFull of n bytes: what it reports when the stream is too short, having read it to its end.
  function ShortRead(data: Bytes): FrameError {
    if data == [] then Eof else UnexpectedEof
  }

  // What a reader makes of a stream, and what it leaves unread.
  function ReadFrame(data: Bytes): (Result<Envelope, FrameError>, Bytes) {
    if |data| < 4 then (Err(ShortRead(data)), [])
    else
      var size, rest := FromBigEndian32(data[..4]), data[4..];
      if size == 0 || size > MAX_CAST_V2_FRAME then (Err(InvalidSize(size)), rest)
      else if |rest| < size then (Err(ShortRead(rest)), [])
      else (FromWire(Unmarshal(rest[..size])), rest[size..])
  }

  function FromWire(r: Result<Envelope, WireError>): Result<Envelope, FrameError> {
    match r
    case Ok(e) => Ok(e)
    case Err(error) => Err(Malformed(error))
  }

  /** What a reader makes of a stream: the first four bytes are the size, most significant first; a size of
      0 or above 4 MiB is refused, and otherwise exactly as many more bytes are one envelope. */
  lemma FrameIsRead(data: Bytes)
    ensures |data| < 4 ==> ReadFrame(data) == (Err(if data == [] then Eof else UnexpectedEof), [])
    ensures |data| >= 4 ==>
      var size := data[0] as int * 0x100_0000 + data[1] as int * 0x1_0000 + data[2] as int * 0x100 + data[3] as int;
      ReadFrame(data) ==
        if size == 0 || size > 4 * 1024 * 1024 then (Err(InvalidSize(size)), data[4..])
        else if |data| < 4 + size then (Err(if |data| == 4 then Eof else UnexpectedEof), [])
        else (FromWire(Unmarshal(data[4..4 + size])), data[4 + size..])
  {
    if |data| >= 4 {
      var size := data[0] as int * 0x100_0000 + data[1] as int * 0x1_0000 + data[2] as int * 0x100 + data[3] as int;
      assert FromBigEndian32(data[..4]) == size;
      if |data| >= 4 + size { assert data[4..][..size] == data[4..4 + size] && data[4..][size..] == data[4 + size..]; }
    }
  }

  /** What a writer puts before a message: four bytes, most significant first, that are its size. */
  lemma FrameIsWritten(payload: Bytes)
    requires |payload| < 0x1_0000_0000
    ensures var b := BigEndian32(|payload|) + payload;
      && |b| == 4 + |payload| && b[4..] == payload
      && b[0] as int * 0x100_0000 + b[1] as int * 0x1_0000 + b[2] as int * 0x100 + b[3] as int == |payload|
  {
    BigEndianRoundTrip(|payload|);
  }

  /** A connection: bytes still to be read, in order. */
  class Stream {
    var data: Bytes

    constructor (data: Bytes)
      ensures this.data == data
    {
      this.data := data;
    }

    // io.ReadFull
    method ReadFull(n: nat) returns (r: Result<Bytes, FrameError>)
      modifies this
      ensures |old(data)| >= n ==> r == Ok(old(data)[..n]) && data == old(data)[n..]
      ensures |old(data)| < n ==> r == Err(ShortRead(old(data))) && data == []
    {
      if |data| < n {
        r := Err(ShortRead(data));
        data := [];
      } else {
        r := Ok(data[..n]);
        data := data[n..];
      }
    }

    method ReadCastV2Frame() returns (r: Result<Envelope, FrameError>)
      modifies this
      ensures (r, data) == ReadFrame(old(data))
      ensures |old(data)| < 4 ==> r == Err(if old(data) == [] then Eof else UnexpectedEof) && data == []
      ensures |old(data)| >= 4 ==>
        var size :=
          old(data[0] as int * 0x100_0000 + data[1] as int * 0x1_0000 + data[2] as int * 0x100 + data[3] as int);
        if size == 0 || size > 4 * 1024 * 1024 then r == Err(InvalidSize(size)) && data == old(data)[4..]
        else if |old(data)| < 4 + size then r == Err(if |old(data)| == 4 then Eof else UnexpectedEof) && data == []
        else r == FromWire(Unmarshal(old(data)[4..4 + size])) && data == old(data)[4 + size..]
    {
      FrameIsRead(data);
      var header := ReadFull(4);
      if header.Err? { return Err(header.error); }
      var size := FromBigEndian32(header.value);
      if size == 0 || size > MAX_CAST_V2_FRAME { return Err(InvalidSize(size)); }
      var payload := ReadFull(size);
      if payload.Err? { return Err(payload.error); }
      var e := UnmarshalEnvelope(payload.value);
      r := FromWire(e);
    }

    // A write of the connection; one that fails may have written a part.
    method Write(bytes: Bytes) returns (ok: bool)
      modifies this
      ensures old(data) <= data <= old(data) + bytes
      ensures ok ==> data == old(data) + bytes
    {
      var n :| 0 <= n <= |bytes|;
      ok := *;
      ok := ok && n == |bytes|;
      data := data + bytes[..n];
    }

    method WriteCastV2Frame(e: Envelope) returns (r: Result<(), FrameError>)
      modifies this
      ensures match WriteFrame(e)
              case Ok(frame) =>
                && (r == Ok(()) || r == Err(WriteFailed)) && old(data) <= data <= old(data) + frame
                && (r.Ok? ==> data == old(data) + frame)
              case Err(error) => r == Err(error) && data == old(data)
      ensures r.Err? && r.error.InvalidSize? <==> |Marshal(e)| == 0 || |Marshal(e)| > 4 * 1024 * 1024
      ensures r.Ok? ==>
        var b := data[|old(data)|..];
        && |b| == 4 + |Marshal(e)| && b[4..] == Marshal(e)
        && b[0] as int * 0x100_0000 + b[1] as int * 0x1_0000 + b[2] as int * 0x100 + b[3] as int == |Marshal(e)|
    {
      var payload := Marshal(e);
      if |payload| == 0 || |payload| > MAX_CAST_V2_FRAME { return Err(InvalidSize(|payload|)); }
      var ok := Write(BigEndian32(|payload|));
      assert old(data) + BigEndian32(|payload|) + payload == old(data) + WriteFrame(e).value;
      if ok { ok := Write(payload); }
      FrameIsWritten(payload);
      r := if ok then Ok(()) else Err(WriteFailed);
    }
  }

  /** A frame that was cut off is never read as an envelope: its reader meets the end of the stream, and
      cannot tell it from a stream that ended between frames exactly when nothing or just the size arrived. */
  lemma TornFrame(e: Envelope, n: nat)
    requires WriteFrame(e).Ok? && n < |WriteFrame(e).value|
    ensures ReadFrame(WriteFrame(e).value[..n]) == (Err(if n == 0 || n == 4 then Eof else UnexpectedEof), [])
  {
    var payload, data := Marshal(e), WriteFrame(e).value[..n];
    if n >= 4 {
      BigEndianRoundTrip(|payload|);
      assert data[..4] == BigEndian32(|payload|);
    }
  }

  lemma BigEndianRoundTrip(n: nat)
    requires n < 0x1_0000_0000
    ensures FromBigEndian32(BigEndian32(n)) == n
  {
    var n1, n2 := n / 256, n / 0x1_0000;
    assert n1 / 256 == n2 && n2 / 256 == n / 0x100_0000;
    assert n == n1 * 256 + n % 256 && n1 == n2 * 256 + n1 % 256;
  }

  lemma SplitFrame(payload: Bytes, tail: Bytes)
    requires 0 < |payload| <= MAX_CAST_V2_FRAME
    ensures ReadFrame(BigEndian32(|payload|) + (payload + tail)) == (FromWire(Unmarshal(payload)), tail)
  {
    var data := BigEndian32(|payload|) + (payload + tail);
    BigEndianRoundTrip(|payload|);
    assert data[..4] == BigEndian32(|payload|) && data[4..] == payload + tail;
    assert (payload + tail)[..|payload|] == payload && (payload + tail)[|payload|..] == tail;
  }

  lemma FrameRead(e: Envelope, tail: Bytes)
    requires Fits(e) && WriteFrame(e).Ok?
    ensures ReadFrame(WriteFrame(e).value + tail) ==
            (Told(e), tail)
  {
    var payload := Marshal(e);
    Regrouped(BigEndian32(|payload|), payload, tail);
    SplitFrame(payload, tail);
    EnvelopeRoundTrip(e);
  }

  // Everything that writing a list of envelopes puts on the stream.
  function WriteAll(es: seq<Envelope>): Bytes
    requires forall e :: e in es ==> WriteFrame(e).Ok?
  {
    if es == [] then [] else WriteFrame(es[0]).value + WriteAll(es[1..])
  }

  function ReadMany(data: Bytes, n: nat): (seq<Result<Envelope, FrameError>>, Bytes)
    decreases n
  {
    if n == 0 then ([], data)
    else
      var (r, rest) := ReadFrame(data);
      var (rs, left) := ReadMany(rest, n - 1);
      ([r] + rs, left)
  }

  // What a reader is told about an envelope that was written.
  function Told(e: Envelope): Result<Envelope, FrameError> {
    if Complete(e) then Ok(e) else Err(Malformed(Incomplete))
  }

  function ToldAll(es: seq<Envelope>): seq<Result<Envelope, FrameError>> {
    if es == [] then [] else [Told(es[0])] + ToldAll(es[1..])
  }

  lemma Regrouped(a: Bytes, b: Bytes, c: Bytes)
    ensures a + b + c == a + (b + c)
  {
  }

  lemma FirstFrame(es: seq<Envelope>, tail: Bytes)
    requires es != [] && forall e :: e in es ==> Fits(e) && WriteFrame(e).Ok?
    ensures ReadFrame(WriteAll(es) + tail) == (Told(es[0]), WriteAll(es[1..]) + tail)
  {
    Regrouped(WriteFrame(es[0]).value, WriteAll(es[1..]), tail);
    FrameRead(es[0], WriteAll(es[1..]) + tail);
  }

  lemma ReadManyStep(data: Bytes, n: nat, r: Result<Envelope, FrameError>, rest: Bytes)
    requires n > 0 && ReadFrame(data) == (r, rest)
    ensures ReadMany(data, n) == ([r] + ReadMany(rest, n - 1).0, ReadMany(rest, n - 1).1)
  {
  }

  lemma FirstOfMany(es: seq<Envelope>, tail: Bytes)
    requires es != [] && forall e :: e in es ==> Fits(e) && WriteFrame(e).Ok?
    ensures var more := ReadMany(WriteAll(es[1..]) + tail, |es| - 1);
            ReadMany(WriteAll(es) + tail, |es|) == ([Told(es[0])] + more.0, more.1)
  {
    FirstFrame(es, tail);
    ReadManyStep(WriteAll(es) + tail, |es|, Told(es[0]), WriteAll(es[1..]) + tail);
  }

  /** Reading as many frames as were written gives the envelopes back in order, refuses exactly the incomplete
      ones without losing its place, and leaves exactly what follows the frames. */
  lemma {:induction false} StreamRoundTrip(es: seq<Envelope>, tail: Bytes)
    requires forall e :: e in es ==> Fits(e) && WriteFrame(e).Ok?
    ensures ReadMany(WriteAll(es) + tail, |es|) == (ToldAll(es), tail)
  {
    if es == [] {
      assert WriteAll(es) + tail == tail;
    } else {
      FirstOfMany(es, tail);
      StreamRoundTrip(es[1..], tail);
    }
  }

  /** Writer and reader agree on the bound: the writer refuses an envelope exactly when the reader would refuse the
      size of its frame. */
  lemma FrameBound(e: Envelope, tail: Bytes)
    requires Fits(e) && |Marshal(e)| < 0x1_0000_0000
    ensures WriteFrame(e).Err? <==>
            ReadFrame(BigEndian32(|Marshal(e)|) + Marshal(e) + tail).0 == Err(InvalidSize(|Marshal(e)|))
  {
    var payload := Marshal(e);
    var data := BigEndian32(|payload|) + payload + tail;
    BigEndianRoundTrip(|payload|);
    assert data[..4] == BigEndian32(|payload|);
    assert data[4..] == payload + tail;
    assert (payload + tail)[..|payload|] == payload;
  }
}
