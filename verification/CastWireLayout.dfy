/**
 The wire format byte by byte: what a varint, a field, a message and a frame look like, stated without
 the functions that read and write them.
 */
module CastWireLayout {
  import opened Wrappers
  import opened CastWire

  // ---- Varints -------------------------------------------------------------------------

  // Every byte but the last has its top bit set.
  predicate IsVarint(b: Bytes) {
    b != [] && b[|b| - 1] < 128 && forall k :: 0 <= k < |b| - 1 ==> b[k] >= 128
  }

  // What groups of seven bits stand for, the least significant group first.
  function Base128(b: Bytes): nat {
    if b == [] then 0 else b[0] % 128 + 128 * Base128(b[1..])
  }

  /** AppendUvarint writes a varint that stands for the value, with no empty group at its end. */
  lemma {:induction false} VarintBytes(x: nat)
    ensures IsVarint(Varint(x)) && Base128(Varint(x)) == x
    ensures x > 0 ==> Varint(x)[|Varint(x)| - 1] != 0
    ensures x < 128 ==> Varint(x) == [x]
    decreases x
  {
    if x >= 128 {
      var rest := Varint(x / 128);
      VarintBytes(x / 128);
      assert Varint(x)[1..] == rest && Varint(x)[|Varint(x)| - 1] == rest[|rest| - 1];
      assert forall k :: 0 < k < |Varint(x)| ==> Varint(x)[k] == rest[k - 1];
    } else {
      assert [x][1..] == [];
    }
  }

  /** There is only one such varint for a value. */
  lemma {:induction false} OneVarint(a: Bytes, b: Bytes)
    requires IsVarint(a) && IsVarint(b) && Base128(a) == Base128(b)
    requires (|a| > 1 ==> a[|a| - 1] != 0) && (|b| > 1 ==> b[|b| - 1] != 0)
    ensures a == b
    decreases |a| + |b|
  {
    Leading(a);
    Leading(b);
    assert a[0] % 128 == b[0] % 128 && Base128(a[1..]) == Base128(b[1..]);
    if |a| > 1 && |b| > 1 {
      assert a == [a[0]] + a[1..] && b == [b[0]] + b[1..];
      OneVarint(a[1..], b[1..]);
    }
  }

  // A longer varint without an empty group at its end has something after its first group.
  lemma {:induction false} Leading(b: Bytes)
    requires IsVarint(b) && (|b| > 1 ==> b[|b| - 1] != 0)
    ensures |b| > 1 <==> Base128(b[1..]) > 0
    decreases |b|
  {
    if |b| > 1 {
      var rest := b[1..];
      assert rest[|rest| - 1] == b[|b| - 1];
      assert forall k :: 0 <= k < |rest| ==> rest[k] == b[k + 1];
      Leading(rest);
    }
  }

  lemma {:induction false} UvarintReadsFrom(b: Bytes, tail: Bytes, i: nat, x: nat)
    requires IsVarint(b) && i <= 10 && x < Pow128(i)
    ensures var d, total := UvarintFrom(b + tail, i, x), x + Base128(b) * Pow128(i);
      if i + |b| <= 10 && total < 0x1_0000_0000_0000_0000 then d == Decoded(total, i + |b|) else d.used < 0
    decreases |b|
  {
    var p := Pow128(i);
    assert (b + tail)[0] == b[0] && (b + tail)[1..] == b[1..] + tail;
    if i < 10 {
      if |b| == 1 {
        assert b[1..] == [];
        LastGroup(b[0], i, x);
      } else {
        var rest := b[1..];
        assert forall k :: 0 <= k < |rest| ==> rest[k] == b[k + 1];
        assert Pow128(i + 1) == 128 * p;
        NextGroup(b[0], Base128(rest), p, x);
        UvarintReadsFrom(rest, tail, i + 1, x + (b[0] - 128) * p);
      }
    }
  }

  lemma LastGroup(digit: Byte, i: nat, x: nat)
    requires digit < 128 && i < 10 && x < Pow128(i)
    ensures x + digit * Pow128(i) < 0x1_0000_0000_0000_0000 <==> i < 9 || digit <= 1
  {
    Pow128Values();
    var p := Pow128(i);
    assert Pow128(i + 1) == 128 * p;
    if i < 9 {
      Pow128Grows(i + 1, 9);
      assert digit * p <= 127 * p;
    }
  }

  lemma NextGroup(digit: Byte, more: nat, p: nat, x: nat)
    requires digit >= 128 && x < p
    ensures (digit % 128 + 128 * more) * p == (digit - 128) * p + more * (128 * p)
    ensures x + (digit - 128) * p < 128 * p
  {
    var d: nat := digit - 128;
    assert digit % 128 == d;
    Spread(d, more, p);
    assert d * p <= 127 * p;
  }

  lemma Spread(d: nat, more: nat, p: nat)
    ensures (d + 128 * more) * p == d * p + more * (128 * p)
  {
  }

  /** Uvarint reads a varint of at most ten bytes that stands for a 64-bit value, whatever follows it, and
      refuses any other. */
  lemma UvarintReads(b: Bytes, tail: Bytes)
    requires IsVarint(b)
    ensures var d := Uvarint(b + tail);
      if |b| <= 10 && Base128(b) < 0x1_0000_0000_0000_0000 then d == Decoded(Base128(b), |b|) else d.used < 0
  {
    UvarintReadsFrom(b, tail, 0, 0);
  }

  /** Nor does it read anything that has no last byte. */
  lemma {:induction false} UvarintNeedsAnEnd(buf: Bytes, i: nat, x: nat)
    requires forall k :: 0 <= k < |buf| ==> buf[k] >= 128
    ensures UvarintFrom(buf, i, x).used <= 0
    decreases |buf|
  {
    if buf != [] && i != 10 { UvarintNeedsAnEnd(buf[1..], i + 1, x + Shifted(buf[0] - 128, i)); }
  }

  // ---- Fields --------------------------------------------------------------------------

  // A varint that Uvarint reads.
  predicate IsUint64(b: Bytes) {
    IsVarint(b) && |b| <= 10 && Base128(b) < 0x1_0000_0000_0000_0000
  }

  lemma KeyIsRead(key: Bytes, body: Bytes)
    requires IsUint64(key)
    ensures ParseField(key + body) == ParseValue(Base128(key) / 8, Base128(key) % 8, body)
  {
    UvarintReads(key, body);
    assert (key + body)[|key|..] == body;
  }

  /** A field is its key, which is eight times its number plus its wire type, and then: for wire type 1 eight
      bytes, for 5 four bytes; 3, 4, 6 and 7 are refused. */
  lemma FixedFields(key: Bytes, body: Bytes)
    requires IsUint64(key)
    ensures var num, wire := Base128(key) / 8, Base128(key) % 8;
      && (wire == 1 ==> ParseField(key + body) == if |body| < 8 then Err(Truncated) else Ok((Fixed(num), body[8..])))
      && (wire == 5 ==> ParseField(key + body) == if |body| < 4 then Err(Truncated) else Ok((Fixed(num), body[4..])))
      && (wire in {3, 4, 6, 7} ==> ParseField(key + body) == Err(UnsupportedWire(wire)))
  {
    KeyIsRead(key, body);
  }

  /** For wire type 0 a varint; for 2 a varint and as many bytes as it says. */
  lemma VarintFields(key: Bytes, v: Bytes, rest: Bytes)
    requires IsUint64(key) && IsVarint(v)
    ensures var num, wire, n := Base128(key) / 8, Base128(key) % 8, Base128(v);
      && (wire == 0 ==>
            ParseField(key + (v + rest)) == if IsUint64(v) then Ok((Number(num, n), rest)) else Err(InvalidVarint(num)))
      && (wire == 2 ==>
            ParseField(key + (v + rest)) ==
              if IsUint64(v) && n <= |rest| then Ok((Text(num, rest[..n]), rest[n..])) else Err(InvalidBytes(num)))
  {
    KeyIsRead(key, v + rest);
    UvarintReads(v, rest);
    NumberFollows(Base128(key) / 8, v, rest);
    TextFollows(Base128(key) / 8, v, rest);
  }

  lemma NumberFollows(num: nat, v: Bytes, rest: Bytes)
    requires IsVarint(v)
    ensures ParseValue(num, 0, v + rest) ==
      if IsUint64(v) then Ok((Number(num, Base128(v)), rest)) else Err(InvalidVarint(num))
  {
    UvarintReads(v, rest);
    assert (v + rest)[|v|..] == rest;
  }

  lemma TextFollows(num: nat, v: Bytes, rest: Bytes)
    requires IsVarint(v)
    ensures ParseValue(num, 2, v + rest) ==
      if IsUint64(v) && Base128(v) <= |rest| then Ok((Text(num, rest[..Base128(v)]), rest[Base128(v)..]))
      else Err(InvalidBytes(num))
  {
    UvarintReads(v, rest);
    if Base128(v) <= |rest| { Cut(v, rest, Base128(v)); }
  }

  lemma Cut(v: Bytes, rest: Bytes, n: nat)
    requires n <= |rest|
    ensures (v + rest)[|v|..|v| + n] == rest[..n] && (v + rest)[|v| + n..] == rest[n..]
  {
  }

  /** Without a varint in them, the bytes after the key are refused, and so is a message without a key. */
  lemma NoVarint(key: Bytes, body: Bytes)
    requires forall k :: 0 <= k < |body| ==> body[k] >= 128
    ensures body != [] ==> ParseField(body) == Err(InvalidKey)
    ensures IsUint64(key) && Base128(key) % 8 == 0 ==>
      ParseField(key + body) == Err(InvalidVarint(Base128(key) / 8))
    ensures IsUint64(key) && Base128(key) % 8 == 2 ==>
      ParseField(key + body) == Err(InvalidBytes(Base128(key) / 8))
  {
    UvarintNeedsAnEnd(body, 0, 0);
    if IsUint64(key) { KeyIsRead(key, body); }
  }

  /** A key that is no 64-bit value is refused. */
  lemma BadKey(key: Bytes, body: Bytes)
    requires IsVarint(key) && !IsUint64(key)
    ensures ParseField(key + body) == Err(InvalidKey)
  {
    UvarintReads(key, body);
  }

  // ---- Messages and frames -----------------------------------------------------------------

  // A text as it stands after its key.
  function Sized(value: Bytes): Bytes {
    Varint(|value|) + value
  }

  /** A marshalled envelope, byte by byte: the keys are those of fields 1 to 6, and fields 1 and 5 are 0. */
  lemma MarshalBytes(e: Envelope)
    ensures Marshal(e) ==
      [8, 0] + [18] + Sized(e.source) + [26] + Sized(e.destination) + [34] + Sized(e.topic) + [40, 0]
      + [50] + Sized(e.payload)
  {
    SmallKeys();
    var a := [8, 0] + [18] + Sized(e.source);
    assert a == AppendBytesField(AppendVarintField([], 1, 0), 2, e.source);
    var b := a + [26] + Sized(e.destination);
    assert b == AppendBytesField(a, 3, e.destination);
    var c := b + [34] + Sized(e.topic);
    assert c == AppendBytesField(b, 4, e.topic);
    assert c + [40, 0] == AppendVarintField(c, 5, 0);
    assert c + [40, 0] + [50] + Sized(e.payload) == AppendBytesField(c + [40, 0], 6, e.payload);
  }

  lemma SmallKeys()
    ensures Varint(0) == [0] && Varint(8) == [8] && Varint(18) == [18] && Varint(26) == [26]
    ensures Varint(34) == [34] && Varint(40) == [40] && Varint(50) == [50]
  {
  }

  /** A frame is the size of its message in four bytes, the most significant first, and the message; messages
      of more than 4 MiB are refused. */
  lemma FrameBytes(e: Envelope)
    ensures WriteFrame(e).Ok? <==> |Marshal(e)| <= 4 * 1024 * 1024
    ensures |Marshal(e)| > 4 * 1024 * 1024 ==> WriteFrame(e) == Err(InvalidSize(|Marshal(e)|))
    ensures WriteFrame(e).Ok? ==>
      var b := WriteFrame(e).value;
      && |b| == 4 + |Marshal(e)| && b[4..] == Marshal(e)
      && b[0] as int * 0x100_0000 + b[1] as int * 0x1_0000 + b[2] as int * 0x100 + b[3] as int == |Marshal(e)|
  {
    MarshalBytes(e);
    if |Marshal(e)| <= 4 * 1024 * 1024 { FrameIsWritten(Marshal(e)); }
  }
}
