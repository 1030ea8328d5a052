/** Length-prefixed strings on a stream: a 16-bit count and then that many 16-bit units, both little-endian as
    they lie in memory. */
module StreamString {
  import opened Collections

  type byte = b: int | 0 <= b < 0x100
  type unit = u: int | 0 <= u < 0x1_0000

  const USHRT_MAX := 0xFFFF

  /** What the 16-bit count can describe. */
  type Str = us: seq<unit> | |us| <= USHRT_MAX

  /** A string read, and how many bytes it took. */
  datatype Decoded = Decoded(units: Str, size: nat)

  // ----- the format -----

  function UnitBytes(u: unit): (bs: seq<byte>)
    ensures |bs| == 2
  {
    [u % 0x100, u / 0x100]
  }

  function BytesUnit(low: byte, high: byte): unit { low + 0x100 * high }

  function UnitsBytes(us: seq<unit>): (bs: seq<byte>)
    ensures |bs| == 2 * |us|
  {
    if us == [] then [] else UnitBytes(us[0]) + UnitsBytes(us[1..])
  }

  function BytesUnits(bs: seq<byte>): (us: seq<unit>)
    requires |bs| % 2 == 0
    ensures |us| == |bs| / 2
  {
    if bs == [] then [] else [BytesUnit(bs[0], bs[1])] + BytesUnits(bs[2..])
  }

  function Encode(us: Str): seq<byte> {
    UnitBytes(|us|) + UnitsBytes(us)
  }

  /** The string at the front of the bytes. */
  function Decode(bs: seq<byte>): Option<Decoded> {
    if |bs| < 2 then None
    else
      var size := 2 * BytesUnit(bs[0], bs[1]);
      if |bs| < 2 + size then None else Some(Decoded(BytesUnits(bs[2..2 + size]), 2 + size))
  }

  // ----- a stream -----

  /** `capacity` is where the medium is full; a write beyond it is short, as a read beyond the end is. */
  class Stream {
    var bytes: seq<byte>
    var pos: nat
    const capacity: nat

    /** A reliable stream fails no call, and memory for what is read from it is available. */
    const reliable: bool

    ghost predicate Valid()
      reads this
    {
      pos <= |bytes| <= capacity
    }

    constructor (bytes: seq<byte>, capacity: nat, reliable: bool)
      requires |bytes| <= capacity
      ensures Valid() && this.bytes == bytes && pos == 0 && this.capacity == capacity && this.reliable == reliable
    {
      this.bytes, pos, this.capacity, this.reliable := bytes, 0, capacity, reliable;
    }

    method Read(size: nat) returns (ok: bool, data: seq<byte>)
      requires Valid()
      modifies this`pos
      ensures Valid()
      ensures ok ==> data == bytes[old(pos)..if size <= |bytes| - old(pos) then old(pos) + size else |bytes|]
      ensures pos == old(pos) + |data| && (reliable ==> ok)
    {
      ok, data := *, [];
      ok := ok || reliable;
      if ok {
        data := bytes[pos..if size <= |bytes| - pos then pos + size else |bytes|];
        pos := pos + |data|;
      }
    }

    method Write(data: seq<byte>) returns (ok: bool, wrote: nat)
      requires Valid()
      modifies this
      ensures Valid()
      ensures wrote <= |data| && (ok && old(pos) + |data| <= capacity ==> wrote == |data|)
      ensures bytes == Overwritten(old(bytes), old(pos), data[..wrote]) && pos == old(pos) + wrote && (reliable ==> ok)
    {
      ok, wrote := *, 0;
      ok := ok || reliable;
      if ok {
        wrote := if |data| <= capacity - pos then |data| else capacity - pos;
      }
      bytes := Overwritten(bytes, pos, data[..wrote]);
      pos := pos + wrote;
    }

    // ----- exact transfers -----

    /** `stream_read_nothrow`: all of it or a failure. */
    method ReadExactly(size: nat) returns (ok: bool, data: seq<byte>)
      requires Valid()
      modifies this`pos
      ensures Valid() && old(pos) <= pos
      ensures ok ==> old(pos) + size <= |bytes| && data == bytes[old(pos)..old(pos) + size] && pos == old(pos) + size
      ensures reliable && old(pos) + size <= |bytes| ==> ok
    {
      ok, data := Read(size);
      ok := ok && |data| == size;
    }

    /** `stream_write_nothrow`. */
    method WriteExactly(data: seq<byte>) returns (ok: bool)
      requires Valid()
      modifies this
      ensures Valid() && old(pos) <= pos && bytes[..old(pos)] == old(bytes[..pos])
      ensures ok ==> bytes == Overwritten(old(bytes), old(pos), data) && pos == old(pos) + |data|
      ensures reliable && old(pos) + |data| <= capacity ==> ok
    {
      var wrote;
      ok, wrote := Write(data);
      ok := ok && wrote == |data|;
      if ok { assert data[..wrote] == data; }
    }

    // ----- strings -----

    /** `stream_write_string_nothrow`; a longer string ends the process before anything is written. */
    method WriteString(source: Str) returns (ok: bool)
      requires Valid()
      modifies this
      ensures Valid() && old(pos) <= pos && bytes[..old(pos)] == old(bytes[..pos])
      ensures ok ==> bytes == Overwritten(old(bytes), old(pos), Encode(source)) && pos == old(pos) + |Encode(source)|
      ensures reliable && old(pos) + |Encode(source)| <= capacity ==> ok
    {
      ok := WriteExactly(UnitBytes(|source|));
      if !ok {
        return;
      }
      ghost var half, at := bytes, pos;
      if |source| > 0 {
        ok := WriteExactly(UnitsBytes(source));
        PrefixOfPrefix(bytes, half, at, old(pos));
      }
      OverwrittenTwice(old(bytes), old(pos), UnitBytes(|source|), UnitsBytes(source));
    }

    /** `stream_read_string_nothrow`.  `ok` with None is the null string for an empty one. */
    method ReadString(returnsNull: bool) returns (ok: bool, value: Option<Str>)
      requires Valid()
      modifies this`pos
      ensures Valid() && old(pos) <= pos
      ensures ok ==>
                && Decode(bytes[old(pos)..]).Some?
                && pos == old(pos) + Decode(bytes[old(pos)..]).value.size
                && value == if returnsNull && Decode(bytes[old(pos)..]).value.units == [] then None
                            else Some(Decode(bytes[old(pos)..]).value.units)
      ensures reliable ==> (ok <==> Decode(bytes[old(pos)..]).Some?)
    {
      value := None;
      var header;
      ok, header := ReadExactly(2);
      if !ok {
        return;
      }
      var cch: nat := BytesUnit(header[0], header[1]);
      if cch == 0 && returnsNull {
        DecodeAt(bytes, old(pos), cch);
        return;
      }
      ok, value := ReadUnits(cch);
      if ok {
        DecodeAt(bytes, old(pos), cch);
      }
    }

    method Seek(to: nat)
      requires Valid() && to <= |bytes|
      modifies this`pos
      ensures Valid() && pos == to
    {
      pos := to;
    }

    /** Several strings one after the other. */
    method WriteStrings(ss: seq<Str>) returns (ok: bool)
      requires Valid()
      modifies this
      ensures Valid() && old(pos) <= pos && bytes[..old(pos)] == old(bytes[..pos])
      ensures ok ==> Writes(old(bytes), old(pos), EncodeAll(Encode, ss), bytes, pos)
      ensures reliable && old(pos) + |EncodeAll(Encode, ss)| <= capacity ==> ok
      decreases |ss|
    {
      if ss == [] {
        OverwrittenByNothing(bytes, pos);
        return true;
      }
      ok := WriteString(ss[0]);
      if !ok {
        return;
      }
      ghost var half, at := bytes, pos;
      ok := WriteStrings(ss[1..]);
      PrefixOfPrefix(bytes, half, at, old(pos));
      WritesTwice(old(bytes), old(pos), Encode(ss[0]), half, EncodeAll(Encode, ss[1..]), bytes);
    }

    /** What was read is the encoding of what is returned; and where the encoding of n strings lies, a reliable
        stream yields those. */
    method ReadStrings(n: nat, ghost expected: seq<Str>) returns (ok: bool, values: seq<Str>)
      requires Valid()
      modifies this`pos
      ensures Valid() && old(pos) <= pos
      ensures ok ==> |values| == n && bytes[old(pos)..pos] == EncodeAll(Encode, values)
      ensures reliable && |expected| == n && Holds(bytes, old(pos), expected) ==> ok && values == expected
      decreases n
    {
      if n == 0 {
        return true, [];
      }
      ghost var at := pos;
      if |expected| == n && Holds(bytes, at, expected) { FirstIsExpected(bytes, at, expected); }
      var first: Option<Str>;
      ok, first := ReadString(false);
      if !ok {
        return false, [];
      }
      ghost var mid := pos;
      ok, values := ReadStrings(n - 1, if expected == [] then [] else expected[1..]);
      if ok { OneMoreRead(bytes, at, mid, pos, values); }
      values := if ok then [first.value] + values else [];
    }

    /** Whatever strings are written to a stream that has room for them are read back from where they were written,
        and reading ends just past them. */
    method WriteThenRead(ss: seq<Str>) returns (values: seq<Str>)
      requires Valid() && reliable && pos + |EncodeAll(Encode, ss)| <= capacity
      modifies this
      ensures Valid() && values == ss && pos == old(pos) + |EncodeAll(Encode, ss)|
    {
      var start := pos;
      var ok := WriteStrings(ss);
      Seek(start);
      assert Holds(bytes, start, ss);
      ok, values := ReadStrings(|ss|, ss);
    }

    /** The rest of the read, once the count is known: allocate, then all units or a failure. */
    method ReadUnits(cch: nat) returns (ok: bool, value: Option<Str>)
      requires Valid() && cch <= USHRT_MAX
      modifies this`pos
      ensures Valid() && old(pos) <= pos
      ensures ok ==>
                && old(pos) + 2 * cch <= |bytes| && pos == old(pos) + 2 * cch
                && value == Some(BytesUnits(bytes[old(pos)..pos]))
      ensures reliable && old(pos) + 2 * cch <= |bytes| ==> ok
    {
      var gotMemory := *;
      if !gotMemory && !reliable {
        return false, None;
      }
      var body;
      ok, body := ReadExactly(2 * cch);
      value := if ok then Some(BytesUnits(body)) else None;
    }
  }

  /** Decoding in the middle of a stream, once the count is known. */
  lemma DecodeAt(bytes: seq<byte>, at: nat, cch: nat)
    requires at + 2 + 2 * cch <= |bytes| && cch == BytesUnit(bytes[at], bytes[at + 1])
    ensures Decode(bytes[at..]) == Some(Decoded(BytesUnits(bytes[at + 2..at + 2 + 2 * cch]), 2 + 2 * cch))
  {
    assert bytes[at..][2..2 + 2 * cch] == bytes[at + 2..at + 2 + 2 * cch];
  }

  function Overwritten(bytes: seq<byte>, pos: nat, data: seq<byte>): (r: seq<byte>)
    requires pos <= |bytes|
    ensures pos + |data| <= |r| && |bytes| <= |r|
    ensures r[..pos] == bytes[..pos] && r[pos..pos + |data|] == data
    ensures |r| == if |bytes| < pos + |data| then pos + |data| else |bytes|
    ensures forall i :: pos + |data| <= i < |bytes| ==> r[i] == bytes[i]
  {
    bytes[..pos] + data + if pos + |data| < |bytes| then bytes[pos + |data|..] else []
  }

  lemma OverwrittenTwice(bytes: seq<byte>, pos: nat, a: seq<byte>, b: seq<byte>)
    requires pos <= |bytes|
    ensures Overwritten(Overwritten(bytes, pos, a), pos + |a|, b) == Overwritten(bytes, pos, a + b)
  {
  }

  /** data has been written at pos, and the position is past it. */
  ghost predicate Writes(before: seq<byte>, pos: nat, data: seq<byte>, after: seq<byte>, end: nat)
    requires pos <= |before|
  {
    after == Overwritten(before, pos, data) && end == pos + |data|
  }

  lemma OverwrittenByNothing(bytes: seq<byte>, pos: nat)
    requires pos <= |bytes|
    ensures Overwritten(bytes, pos, []) == bytes
  {
  }

  lemma WritesTwice(bytes: seq<byte>, pos: nat, a: seq<byte>, half: seq<byte>, b: seq<byte>, after: seq<byte>)
    requires pos <= |bytes| && half == Overwritten(bytes, pos, a)
    ensures after == Overwritten(half, pos + |a|, b) ==> after == Overwritten(bytes, pos, a + b)
  {
    OverwrittenTwice(bytes, pos, a, b);
  }

  lemma PrefixOfPrefix(a: seq<byte>, b: seq<byte>, n: nat, k: nat)
    requires k <= n <= |a| && n <= |b| && a[..n] == b[..n]
    ensures a[..k] == b[..k]
  {
    assert a[..k] == a[..n][..k] && b[..k] == b[..n][..k];
  }

  // ----- the bytes -----

  lemma {:induction false} UnitsBytesAt(us: seq<unit>, k: nat)
    requires k < |us|
    ensures UnitsBytes(us)[2 * k] == us[k] % 0x100 && UnitsBytes(us)[2 * k + 1] == us[k] / 0x100
  {
    if k > 0 { UnitsBytesAt(us[1..], k - 1); }
  }

  /** The count and every unit are two bytes, the low one first. */
  lemma EncodedBytes(us: Str, k: nat)
    requires k < |us|
    ensures |Encode(us)| == 2 + 2 * |us|
    ensures Encode(us)[0] == |us| % 0x100 && Encode(us)[1] == |us| / 0x100
    ensures Encode(us)[2 + 2 * k] == us[k] % 0x100 && Encode(us)[3 + 2 * k] == us[k] / 0x100
  {
    UnitsBytesAt(us, k);
  }

  /** An empty string is its count alone; three units are the count and "Waf". */
  lemma WafflesAreEncoded()
    ensures Encode([]) == [0, 0]
    ensures Encode([87, 97, 102]) == [3, 0, 87, 0, 97, 0, 102, 0]
  {
    EncodedBytes([87, 97, 102], 0);
    EncodedBytes([87, 97, 102], 1);
    EncodedBytes([87, 97, 102], 2);
  }

  // ----- round trips -----

  lemma UnitRoundTrip(u: unit)
    ensures BytesUnit(UnitBytes(u)[0], UnitBytes(u)[1]) == u
  {
  }

  lemma {:induction false} UnitsRoundTrip(us: seq<unit>)
    ensures BytesUnits(UnitsBytes(us)) == us
  {
    if us != [] {
      UnitRoundTrip(us[0]);
      UnitsRoundTrip(us[1..]);
      assert UnitsBytes(us)[2..] == UnitsBytes(us[1..]);
    }
  }

  /** Whatever follows it, an encoded string is read back whole, and reading stops just past it. */
  lemma DecodesEncoded(us: Str, rest: seq<byte>)
    ensures Decode(Encode(us) + rest) == Some(Decoded(us, |Encode(us)|))
  {
    var bs := Encode(us) + rest;
    assert bs[..2] == UnitBytes(|us|);
    UnitRoundTrip(|us|);
    assert bs[2..2 + 2 * |us|] == UnitsBytes(us);
    UnitsRoundTrip(us);
  }

  /** A string written anywhere in a stream reads back from there, whatever the stream held before. */
  lemma WrittenReadsBack(bytes: seq<byte>, pos: nat, us: Str)
    requires pos <= |bytes|
    ensures Decode(Overwritten(bytes, pos, Encode(us))[pos..]) == Some(Decoded(us, |Encode(us)|))
  {
    var after, n := Overwritten(bytes, pos, Encode(us)), |Encode(us)|;
    assert after[pos..] == Encode(us) + after[pos + n..];
    DecodesEncoded(us, after[pos + n..]);
  }

  /** A truncated string is never taken for a shorter one. */
  lemma StrictPrefixFails(us: Str, n: nat)
    requires n < |Encode(us)|
    ensures Decode(Encode(us)[..n]) == None
  {
    if n >= 2 {
      assert Encode(us)[..n][..2] == UnitBytes(|us|);
      UnitRoundTrip(|us|);
    }
  }

  /** Nothing else decodes to a string: decoding determines the bytes. */
  lemma DecodedIsEncoded(bs: seq<byte>)
    requires Decode(bs).Some?
    ensures var d := Decode(bs).value; d.size <= |bs| && bs[..d.size] == Encode(d.units)
  {
    var n := Decode(bs).value.size;
    UnitsBytesOfBytes(bs[2..n]);
    assert bs[..2] == UnitBytes(BytesUnit(bs[0], bs[1]));
    assert bs[..n] == bs[..2] + bs[2..n];
  }

  lemma {:induction false} UnitsBytesOfBytes(bs: seq<byte>)
    requires |bs| % 2 == 0
    ensures UnitsBytes(BytesUnits(bs)) == bs
  {
    if bs != [] {
      UnitsBytesOfBytes(bs[2..]);
      assert BytesUnits(bs)[1..] == BytesUnits(bs[2..]);
    }
  }

  /** One encoding after the other, and reading n of them back. */
  function EncodeAll(enc: Str -> seq<byte>, ss: seq<Str>): seq<byte> {
    if ss == [] then [] else enc(ss[0]) + EncodeAll(enc, ss[1..])
  }

  function DecodeAll(dec: seq<byte> -> Option<Decoded>, bs: seq<byte>, n: nat): Option<(seq<Str>, nat)> {
    if n == 0 then Some(([], 0))
    else
      match dec(bs)
      case None => None
      case Some(Decoded(first, size)) =>
        if size > |bs| then None
        else
          match DecodeAll(dec, bs[size..], n - 1)
          case None => None
          case Some((rest, more)) => Some(([first] + rest, size + more))
  }

  lemma {:induction false} SequencesRoundTrip(enc: Str -> seq<byte>, dec: seq<byte> -> Option<Decoded>,
        ss: seq<Str>, rest: seq<byte>)
    requires forall s, bs :: dec(enc(s) + bs) == Some(Decoded(s, |enc(s)|))
    ensures DecodeAll(dec, EncodeAll(enc, ss) + rest, |ss|) == Some((ss, |EncodeAll(enc, ss)|))
  {
    if ss != [] {
      var first, others := enc(ss[0]), EncodeAll(enc, ss[1..]) + rest;
      assert EncodeAll(enc, ss) + rest == first + others;
      assert (first + others)[|first|..] == others;
      SequencesRoundTrip(enc, dec, ss[1..], rest);
      assert [ss[0]] + ss[1..] == ss;
    }
  }

  /** Any sequence of strings, embedded nulls and empty strings included, reads back as it was written. */
  lemma SequenceRoundTrip(ss: seq<Str>, rest: seq<byte>)
    ensures DecodeAll(Decode, EncodeAll(Encode, ss) + rest, |ss|) == Some((ss, |EncodeAll(Encode, ss)|))
  {
    forall s: Str, bs: seq<byte> ensures Decode(Encode(s) + bs) == Some(Decoded(s, |Encode(s)|)) {
      DecodesEncoded(s, bs);
    }
    SequencesRoundTrip(Encode, Decode, ss, rest);
  }

  /** The encoding of the strings lies at this place. */
  predicate Holds(bytes: seq<byte>, at: nat, ss: seq<Str>) {
    var n := |EncodeAll(Encode, ss)|;
    at + n <= |bytes| && bytes[at..at + n] == EncodeAll(Encode, ss)
  }

  lemma FirstIsExpected(bytes: seq<byte>, at: nat, ss: seq<Str>)
    requires Holds(bytes, at, ss) && ss != []
    ensures at <= |bytes| && Decode(bytes[at..]) == Some(Decoded(ss[0], |Encode(ss[0])|))
    ensures Holds(bytes, at + |Encode(ss[0])|, ss[1..])
  {
    var first, rest := Encode(ss[0]), EncodeAll(Encode, ss[1..]);
    var end := at + |first| + |rest|;
    assert bytes[at..end] == first + rest;
    assert bytes[at + |first|..end] == bytes[at..end][|first|..] == rest;
    assert bytes[at..] == first + (rest + bytes[end..]);
    DecodesEncoded(ss[0], rest + bytes[end..]);
  }

  lemma OneMoreRead(bytes: seq<byte>, at: nat, mid: nat, end: nat, values: seq<Str>)
    requires at <= mid <= end <= |bytes| && Decode(bytes[at..]).Some? && mid == at + Decode(bytes[at..]).value.size
    requires bytes[mid..end] == EncodeAll(Encode, values)
    ensures bytes[at..end] == EncodeAll(Encode, [Decode(bytes[at..]).value.units] + values)
  {
    var all := [Decode(bytes[at..]).value.units] + values;
    DecodedIsEncoded(bytes[at..]);
    assert bytes[at..mid] == bytes[at..][..mid - at];
    assert all[1..] == values;
    assert bytes[at..end] == bytes[at..mid] + bytes[mid..end];
  }

  /** The bytes read determine the strings. */
  lemma EncodingsAreUnique(a: seq<Str>, b: seq<Str>)
    requires |a| == |b| && EncodeAll(Encode, a) == EncodeAll(Encode, b)
    ensures a == b
  {
    SequenceRoundTrip(a, []);
    SequenceRoundTrip(b, []);
  }
}
