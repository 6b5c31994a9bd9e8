/**
 * Base64 with padding (section 4 of RFC 4648), read as leniently as the host language reads it, and
 * the way data deltas accumulate in a message: each delta is a chunk of its own, so chunks are
 * decoded, joined as bytes and encoded again.
 */
module Base64 {
  import opened Prelude

  type Byte = x: int | 0 <= x < 256

  type Sextet = x: int | 0 <= x < 64

  const PAD: char := '='

  /** The alphabet of table 1. */
  function ToChar(v: Sextet): char
  {
    if v < 26 then ('A' as int + v) as char
    else if v < 52 then ('a' as int + (v - 26)) as char
    else if v < 62 then ('0' as int + (v - 52)) as char
    else if v == 62 then '+' else '/'
  }

  const UPPER := "ABCDEFGHIJKLMNOPQRSTUVWXYZ"

  const LOWER := "abcdefghijklmnopqrstuvwxyz"

  const DIGITS := "0123456789"

  /** The characters are those of the table, in its order. */
  lemma AlphabetIsTable(v: Sextet)
    ensures |UPPER| == 26 && |LOWER| == 26 && |DIGITS| == 10
    ensures ToChar(v) == (UPPER + LOWER + DIGITS + "+/")[v]
  {
    assert v < 26 ==> UPPER[v] == ('A' as int + v) as char;
    assert 26 <= v < 52 ==> LOWER[v - 26] == ('a' as int + v - 26) as char;
    assert 52 <= v < 62 ==> DIGITS[v - 52] == ('0' as int + v - 52) as char;
  }

  function FromChar(c: char): Option<Sextet>
  {
    if 'A' <= c <= 'Z' then Some(c as int - 'A' as int)
    else if 'a' <= c <= 'z' then Some(c as int - 'a' as int + 26)
    else if '0' <= c <= '9' then Some(c as int - '0' as int + 52)
    else if c == '+' then Some(62)
    else if c == '/' then Some(63)
    else None
  }

  lemma AlphabetInverts(v: Sextet)
    ensures FromChar(ToChar(v)) == Some(v) && ToChar(v) != PAD
  {
  }

  function Encode(bytes: seq<Byte>): string
  {
    if |bytes| == 0 then ""
    else if |bytes| == 1 then [ToChar(bytes[0] / 4), ToChar(bytes[0] % 4 * 16), PAD, PAD]
    else if |bytes| == 2 then
      [ToChar(bytes[0] / 4), ToChar(bytes[0] % 4 * 16 + bytes[1] / 16), ToChar(bytes[1] % 16 * 4), PAD]
    else
      [ToChar(bytes[0] / 4), ToChar(bytes[0] % 4 * 16 + bytes[1] / 16),
       ToChar(bytes[1] % 16 * 4 + bytes[2] / 64), ToChar(bytes[2] % 64)] + Encode(bytes[3..])
  }

  /** The bytes of a group, from the bits left of one sextet and the next sextet. */
  function Joined(left: Sextet, v: Sextet): Byte { left * 4 + v / 16 }

  function Second(left: Sextet, v: Sextet): Byte
    requires left < 16
  {
    left * 16 + v / 4
  }

  function Third(left: Sextet, v: Sextet): Byte
    requires left < 4
  {
    left * 64 + v
  }

  /**
   * Decoding from the middle of a group: `quad` of its sextets are read, `left` holds the bits not yet
   * put out, and `pads` paddings have come since. Characters outside the alphabet are skipped, and so
   * is everything after a padding that completes a group. `None` stands for an error.
   */
  function Scan(s: string, quad: nat, left: Sextet, pads: nat): Option<seq<Byte>>
    requires quad < 4 && (quad == 2 ==> left < 16) && (quad == 3 ==> left < 4)
  {
    if s == "" then (if quad == 0 then Some([]) else None)
    else if s[0] == PAD then
      if quad < 2 then Scan(s[1..], quad, left, pads)
      else if quad + pads + 1 >= 4 then Some([])
      else Scan(s[1..], quad, left, pads + 1)
    else
      var c := FromChar(s[0]);
      if c.None? then Scan(s[1..], quad, left, pads)
      else
        var v := c.value;
        if quad == 0 then Scan(s[1..], 1, v, 0)
        else if quad == 1 then Put(Joined(left, v), Scan(s[1..], 2, v % 16, 0))
        else if quad == 2 then Put(Second(left, v), Scan(s[1..], 3, v % 4, 0))
        else Put(Third(left, v), Scan(s[1..], 0, 0, 0))
  }

  function Put(b: Byte, rest: Option<seq<Byte>>): Option<seq<Byte>>
  {
    if rest.None? then None else Some([b] + rest.value)
  }

  lemma PutsAll(a: Byte, b: Byte, c: Byte, rest: seq<Byte>)
    ensures Put(a, Some([])) == Some([a]) && Put(a, Put(b, Some([]))) == Some([a, b])
    ensures Put(a, Put(b, Put(c, Some(rest)))) == Some([a, b, c] + rest)
  {
    assert [b] + [] == [b] && [a] + [b] == [a, b] && [a] + [] == [a];
    assert [a] + ([b] + ([c] + rest)) == [a, b, c] + rest;
  }

  predicate Ascii(s: string) { forall i :: 0 <= i < |s| ==> s[i] < 128 as char }

  /** `b64decode` of a text; only ASCII text is taken. */
  function Decode(s: string): Option<seq<Byte>> { if Ascii(s) then Scan(s, 0, 0, 0) else None }

  // ---------------------------------------------------------------------------
  // Decoding undoes encoding
  // ---------------------------------------------------------------------------

  lemma {:induction false} GroupInverts(a: Byte, b: Byte, c: Byte)
    ensures Joined(a / 4, a % 4 * 16 + b / 16) == a
    ensures Second((a % 4 * 16 + b / 16) % 16, b % 16 * 4 + c / 64) == b
    ensures Third((b % 16 * 4 + c / 64) % 4, c % 64) == c
  {
  }

  /** A character of the alphabet is read. */
  lemma ScanChar(v: Sextet, more: string, quad: nat, left: Sextet)
    requires quad < 4 && (quad == 2 ==> left < 16) && (quad == 3 ==> left < 4)
    ensures Scan([ToChar(v)] + more, quad, left, 0) ==
      if quad == 0 then Scan(more, 1, v, 0)
      else if quad == 1 then Put(Joined(left, v), Scan(more, 2, v % 16, 0))
      else if quad == 2 then Put(Second(left, v), Scan(more, 3, v % 4, 0))
      else Put(Third(left, v), Scan(more, 0, 0, 0))
  {
    AlphabetInverts(v);
    hide ToChar, FromChar;
    assert ([ToChar(v)] + more)[1..] == more;
  }

  lemma ScanPad(more: string, quad: nat, left: Sextet, pads: nat)
    requires 2 <= quad < 4 && (quad == 2 ==> left < 16) && (quad == 3 ==> left < 4)
    ensures Scan([PAD] + more, quad, left, pads) == if quad + pads + 1 >= 4 then Some([]) else Scan(more, quad, left, pads + 1)
  {
    assert ([PAD] + more)[1..] == more;
  }

  /** A full group, whatever follows. */
  lemma {:induction false} ScanGroup(a: Byte, b: Byte, c: Byte, more: string)
    ensures Scan([ToChar(a / 4), ToChar(a % 4 * 16 + b / 16), ToChar(b % 16 * 4 + c / 64), ToChar(c % 64)] + more, 0, 0, 0) ==
      Put(a, Put(b, Put(c, Scan(more, 0, 0, 0))))
  {
    hide ToChar, Scan, Joined, Second, Third;
    var v, w, x, y := a / 4, a % 4 * 16 + b / 16, b % 16 * 4 + c / 64, c % 64;
    var after3 := [ToChar(y)] + more;
    var after2 := [ToChar(x)] + after3;
    var after1 := [ToChar(w)] + after2;
    assert [ToChar(v), ToChar(w), ToChar(x), ToChar(y)] + more == [ToChar(v)] + after1;
    ScanChar(v, after1, 0, 0);
    ScanChar(w, after2, 1, v);
    ScanChar(x, after3, 2, w % 16);
    ScanChar(y, more, 3, x % 4);
    GroupInverts(a, b, c);
  }

  /** A padded group ends the text: what follows is not read. */
  lemma {:induction false} ScanPadded(a: Byte, b: Byte, more: string)
    ensures Scan([ToChar(a / 4), ToChar(a % 4 * 16), PAD, PAD] + more, 0, 0, 0) == Some([a])
    ensures Scan([ToChar(a / 4), ToChar(a % 4 * 16 + b / 16), ToChar(b % 16 * 4), PAD] + more, 0, 0, 0) == Some([a, b])
  {
    hide ToChar, Scan, Joined, Second, Third;
    PutsAll(a, b, 0, []);
    var one := [PAD] + more;
    var two := [PAD] + one;
    var v, w, x := a / 4, a % 4 * 16, b % 16 * 4;
    assert [ToChar(v), ToChar(w), PAD, PAD] + more == [ToChar(v)] + ([ToChar(w)] + two);
    ScanChar(v, [ToChar(w)] + two, 0, 0);
    ScanChar(w, two, 1, v);
    ScanPad(one, 2, w % 16, 0);
    ScanPad(more, 2, w % 16, 1);
    GroupInverts(a, 0, 0);
    var w' := a % 4 * 16 + b / 16;
    assert [ToChar(v), ToChar(w'), ToChar(x), PAD] + more == [ToChar(v)] + ([ToChar(w')] + ([ToChar(x)] + one));
    ScanChar(v, [ToChar(w')] + ([ToChar(x)] + one), 0, 0);
    ScanChar(w', [ToChar(x)] + one, 1, v);
    ScanChar(x, one, 2, w' % 16);
    ScanPad(more, 3, x % 4, 0);
    GroupInverts(a, b, 0);
  }

  /** An encoding is read up to its padding; without padding, reading goes on with what follows. */
  lemma {:induction false} ScanEncoded(bytes: seq<Byte>, more: string)
    ensures Scan(Encode(bytes) + more, 0, 0, 0) ==
      if |bytes| % 3 != 0 then Some(bytes)
      else if Scan(more, 0, 0, 0).None? then None else Some(bytes + Scan(more, 0, 0, 0).value)
    decreases |bytes|
  {
    hide Scan, ToChar, Encode, Put;
    var after := Scan(more, 0, 0, 0);
    if |bytes| < 3 {
      ScanShort(bytes, more);
      if after.Some? { assert [] + after.value == after.value; }
    } else {
      var rest := bytes[3..];
      ScanEncoded(rest, more);
      ScanFirst(bytes, more);
      assert bytes == [bytes[0], bytes[1], bytes[2]] + rest;
      PutsAll(bytes[0], bytes[1], bytes[2], rest);
      if after.Some? {
        PutsAll(bytes[0], bytes[1], bytes[2], rest + after.value);
        assert [bytes[0], bytes[1], bytes[2]] + (rest + after.value) == bytes + after.value;
      } else {
        PutsNone(bytes[0], bytes[1], bytes[2]);
      }
    }
  }

  lemma PutsNone(a: Byte, b: Byte, c: Byte)
    ensures Put(a, Put(b, Put(c, None))) == None
  {
  }

  lemma {:induction false} ScanShort(bytes: seq<Byte>, more: string)
    requires |bytes| < 3
    ensures Scan(Encode(bytes) + more, 0, 0, 0) == if bytes != [] then Some(bytes) else Scan(more, 0, 0, 0)
  {
    hide Scan, ToChar;
    if |bytes| == 0 {
      assert Encode(bytes) + more == more;
    } else if |bytes| == 1 {
      ScanPadded(bytes[0], 0, more);
      assert bytes == [bytes[0]];
    } else {
      ScanPadded(bytes[0], bytes[1], more);
      assert bytes == [bytes[0], bytes[1]];
    }
  }

  lemma {:induction false} ScanFirst(bytes: seq<Byte>, more: string)
    requires |bytes| >= 3
    ensures Scan(Encode(bytes) + more, 0, 0, 0) == Put(bytes[0], Put(bytes[1], Put(bytes[2], Scan(Encode(bytes[3..]) + more, 0, 0, 0))))
  {
    hide Scan, ToChar, Put;
    var a, b, c, tail := bytes[0], bytes[1], bytes[2], Encode(bytes[3..]);
    var group := [ToChar(a / 4), ToChar(a % 4 * 16 + b / 16), ToChar(b % 16 * 4 + c / 64), ToChar(c % 64)];
    ScanGroup(a, b, c, tail + more);
    assert (group + tail) + more == group + (tail + more);
  }

  lemma {:induction false} EncodeAscii(bytes: seq<Byte>)
    ensures Ascii(Encode(bytes))
    decreases |bytes|
  {
    if |bytes| >= 3 { EncodeAscii(bytes[3..]); }
  }

  lemma {:induction false} DecodeEncode(bytes: seq<Byte>)
    ensures Decode(Encode(bytes)) == Some(bytes)
  {
    hide Encode;
    EncodeAscii(bytes);
    ScanEncoded(bytes, "");
    assert Encode(bytes) + "" == Encode(bytes);
    assert bytes + [] == bytes;
  }

  /** Two encodings joined as text: all bytes if the first needs no padding, and otherwise the second is dropped without an error. */
  lemma {:induction false} TextJoinDecodes(a: seq<Byte>, b: seq<Byte>)
    ensures Decode(Encode(a) + Encode(b)) == Some(if |a| % 3 == 0 then a + b else a)
  {
    hide Encode, Scan;
    EncodeAscii(a);
    EncodeAscii(b);
    ScanEncoded(a, Encode(b));
    DecodeEncode(b);
  }

  /**
   * Joining two encodings as text gives the joined bytes exactly when the first has no padding or the
   * second is empty; this is why chunks are decoded before they are joined.
   */
  lemma {:induction false} TextJoinWorksIff(a: seq<Byte>, b: seq<Byte>)
    ensures Decode(Encode(a) + Encode(b)) == Some(a + b) <==> |a| % 3 == 0 || b == []
  {
    hide Decode, Encode;
    TextJoinDecodes(a, b);
    assert |a + b| == |a| + |b|;
    assert b == [] ==> a + b == a;
  }

  // ---------------------------------------------------------------------------
  // Accumulating deltas
  // ---------------------------------------------------------------------------

  /** One data delta: an empty one is skipped, an undecodable one is an error that leaves the data alone. */
  function Accumulate(data: string, delta: string): Result<string, LLMError>
  {
    if delta == "" then Ok(data)
    else
      var before, incoming := Decode(data), Decode(delta);
      if before.None? || incoming.None? then Err(LLMError("incorrect padding", "binascii"))
      else Ok(Encode(before.value + incoming.value))
  }

  function AccumulateAll(data: string, deltas: seq<string>): Result<string, LLMError>
  {
    if deltas == [] then Ok(data)
    else
      match AccumulateAll(data, deltas[..|deltas| - 1])
      case Err(e) => Err(e)
      case Ok(sofar) => Accumulate(sofar, deltas[|deltas| - 1])
  }

  /** The bytes the deltas carry, one after the other; `None` when one cannot be decoded. */
  function Carried(deltas: seq<string>): Option<seq<Byte>>
  {
    if deltas == [] then Some([])
    else
      var before, last := Carried(deltas[..|deltas| - 1]), Decode(deltas[|deltas| - 1]);
      if before.None? || last.None? then None else Some(before.value + last.value)
  }

  /** A data block being rebuilt. */
  class DataSource {
    var data: string

    constructor ()
      ensures data == ""
    {
      data := "";
    }

    method AppendDelta(delta: string) returns (error: Option<LLMError>)
      modifies this
      ensures error == None <==> Accumulate(old(data), delta).Ok?
      ensures data == if error == None then Accumulate(old(data), delta).value else old(data)
    {
      if delta == "" { return None; }
      var existing := if data != "" then Decode(data) else Some([]);
      var incoming := Decode(delta);
      if existing.None? || incoming.None? { return Some(LLMError("incorrect padding", "binascii")); }
      data := Encode(existing.value + incoming.value);
      error := None;
    }
  }

  /** The accumulated data decodes to all bytes of all chunks, and fails exactly when a chunk cannot be decoded. */
  lemma {:induction false} AccumulatedBytes(deltas: seq<string>)
    ensures AccumulateAll("", deltas).Ok? <==> Carried(deltas).Some?
    ensures Carried(deltas).Some? ==> Decode(AccumulateAll("", deltas).value) == Carried(deltas)
  {
    hide Decode, Encode;
    assert Decode("") == Some([]) by { EmptyDecodes(); }
    if deltas != [] {
      AccumulatedBytes(deltas[..|deltas| - 1]);
      var before, last := Carried(deltas[..|deltas| - 1]), Decode(deltas[|deltas| - 1]);
      if before.Some? && last.Some? {
        DecodeEncode(before.value + last.value);
        assert deltas[|deltas| - 1] == "" ==> before.value + last.value == before.value;
      }
    }
  }

  lemma EmptyDecodes()
    ensures Decode("") == Some([])
  {
  }
}
