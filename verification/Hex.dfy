/** File names for key parts, and JSON-lines framing: the pure half of domains/sessions/file_store.go. */
module Hex {
  import opened Json

  /** A Go string is a sequence of bytes: one character per byte. */
  predicate Bytes(s: string) {
    forall i :: 0 <= i < |s| ==> s[i] as int < 256
  }

  function Digit(n: nat): char
    requires n < 16
  {
    if n < 10 then (n + '0' as int) as char else (n - 10 + 'a' as int) as char
  }

  function Encode(s: string): string
    requires Bytes(s)
  {
    if s == [] then [] else [Digit(s[0] as int / 16), Digit(s[0] as int % 16)] + Encode(s[1..])
  }

  /** The value of a hexadecimal digit of either case. */
  function Value(c: char): Option<nat> {
    if '0' <= c <= '9' then Some(c as int - '0' as int)
    else if 'a' <= c <= 'f' then Some(c as int - 'a' as int + 10)
    else if 'A' <= c <= 'F' then Some(c as int - 'A' as int + 10)
    else None
  }

  function Decode(h: string): Option<string> {
    if h == [] then Some([])
    else if |h| == 1 || Value(h[0]).None? || Value(h[1]).None? then None
    else match Decode(h[2..])
      case None => None
      case Some(rest) =>
        ValueBound(h[0]);
        ValueBound(h[1]);
        Some([(16 * Value(h[0]).value + Value(h[1]).value) as char] + rest)
  }

  lemma ValueBound(c: char)
    ensures Value(c).Some? ==> Value(c).value < 16
  {
  }

  lemma ByteDigits(b: nat)
    requires b < 256
    ensures b / 16 < 16 && b % 16 < 16 && 16 * (b / 16) + b % 16 == b
    ensures Value(Digit(b / 16)) == Some(b / 16) && Value(Digit(b % 16)) == Some(b % 16)
  {
  }

  lemma {:induction false} DecodeEncode(s: string)
    requires Bytes(s)
    ensures Decode(Encode(s)) == Some(s)
  {
    if s != [] {
      var b := s[0] as int;
      ByteDigits(b);
      DecodeEncode(s[1..]);
      DecodePair(b / 16, b % 16, Encode(s[1..]));
      assert s == [s[0]] + s[1..];
    }
  }

  lemma DecodePair(high: nat, low: nat, h: string)
    requires high < 16 && low < 16 && Value(Digit(high)) == Some(high) && Value(Digit(low)) == Some(low)
    ensures Decode([Digit(high), Digit(low)] + h)
      == if Decode(h).None? then None else Some([(16 * high + low) as char] + Decode(h).value)
  {
    assert ([Digit(high), Digit(low)] + h)[2..] == h;
  }

  function EncodePart(s: string): string
    requires Bytes(s)
  {
    "x" + Encode(s)
  }

  function DecodePart(name: string): Option<string> {
    if name == [] || name[0] != 'x' then None else Decode(name[1..])
  }

  /** A key part comes back from its file name, so different parts have different names. */
  lemma PartRoundTrip(s: string)
    requires Bytes(s)
    ensures DecodePart(EncodePart(s)) == Some(s)
  {
    DecodeEncode(s);
    assert EncodePart(s)[1..] == Encode(s);
  }

  lemma PartInjective(s: string, t: string)
    requires Bytes(s) && Bytes(t) && EncodePart(s) == EncodePart(t)
    ensures s == t
  {
    PartRoundTrip(s);
    PartRoundTrip(t);
  }

  /** The suffix from the last dot, as filepath.Ext. */
  function Ext(name: string): (r: string)
    ensures |r| <= |name|
  {
    if name == [] then []
    else if Ext(name[1..]) != [] then Ext(name[1..])
    else if name[0] == '.' then name else []
  }

  lemma {:induction false} ExtOfSuffix(a: string, b: string)
    requires Ext(b) != []
    ensures Ext(a + b) == Ext(b)
  {
    if a == [] {
      assert a + b == b;
    } else {
      ExtOfSuffix(a[1..], b);
      assert (a + b)[1..] == a[1..] + b;
    }
  }

  lemma {:induction false} NoDotNoExt(s: string)
    requires '.' !in s
    ensures Ext(s) == []
  {
    if s != [] {
      NoDotNoExt(s[1..]);
    }
  }

  lemma JsonlExt()
    ensures Ext(JSONL) == JSONL
  {
    NoDotNoExt("jsonl");
    assert JSONL[1..] == "jsonl";
  }

  // Framing: one line an entry.

  datatype Codec = Codec(enc: Entry -> string, dec: string -> Option<Entry>)

  ghost predicate Faithful(c: Codec) {
    forall e :: c.enc(e) != "" && '\n' !in c.enc(e) && c.dec(c.enc(e)) == Some(e)
  }

  function Lines(c: Codec, entries: seq<Entry>): string {
    if entries == [] then "" else Lines(c, entries[..|entries| - 1]) + c.enc(entries[|entries| - 1]) + "\n"
  }

  lemma {:induction false} LinesConcat(c: Codec, a: seq<Entry>, b: seq<Entry>)
    ensures Lines(c, a + b) == Lines(c, a) + Lines(c, b)
  {
    if b == [] {
      assert a + b == a;
    } else {
      var front, last := b[..|b| - 1], b[|b| - 1];
      LinesConcat(c, a, front);
      assert (a + b)[..|a + b| - 1] == a + front;
    }
  }

  /** Where the next newline is, or the end. */
  function LineEnd(raw: string, i: nat): (j: nat)
    requires i <= |raw|
    ensures i <= j <= |raw|
    decreases |raw| - i
  {
    if i == |raw| || raw[i] == '\n' then i else LineEnd(raw, i + 1)
  }

  /** The entries of the non-empty lines from i on; None if one does not decode. */
  function Parse(c: Codec, raw: string, i: nat): Option<seq<Entry>>
    requires i <= |raw|
    decreases |raw| - i
  {
    var j := LineEnd(raw, i);
    var rest := if j == |raw| then Some([]) else Parse(c, raw, j + 1);
    if i == j then rest
    else match c.dec(raw[i..j])
      case None => None
      case Some(e) => if rest.None? then None else Some([e] + rest.value)
  }

  function Prepend(a: seq<Entry>, r: Option<seq<Entry>>): Option<seq<Entry>> {
    if r.None? then None else Some(a + r.value)
  }

  lemma PrependTwice(a: seq<Entry>, b: seq<Entry>, r: Option<seq<Entry>>)
    ensures Prepend(a, Prepend(b, r)) == Prepend(a + b, r) && Prepend([], r) == r
  {
    if r.Some? {
      assert a + (b + r.value) == (a + b) + r.value;
      assert [] + r.value == r.value;
    }
  }

  method Read(c: Codec, raw: string) returns (out: Option<seq<Entry>>)
    ensures out == Parse(c, raw, 0)
  {
    var entries: seq<Entry> := [];
    var i := 0;
    PrependTwice([], [], Parse(c, raw, 0));
    while true
      invariant i <= |raw|
      invariant Parse(c, raw, 0) == Prepend(entries, Parse(c, raw, i))
      decreases |raw| - i
    {
      var j := LineEnd(raw, i);
      if i < j {
        var e := c.dec(raw[i..j]);
        if e.None? {
          return None;
        }
        PrependTwice(entries, [e.value], if j == |raw| then Some([]) else Parse(c, raw, j + 1));
        entries := entries + [e.value];
      }
      if j == |raw| {
        assert entries + [] == entries;
        return Some(entries);
      }
      i := j + 1;
    }
  }

  lemma {:induction false} LineEndAt(raw: string, i: nat, j: nat)
    requires i <= j < |raw| && raw[j] == '\n' && '\n' !in raw[i..j]
    ensures LineEnd(raw, i) == j
    decreases j - i
  {
    if i < j {
      assert raw[i] in raw[i..j];
      assert raw[i + 1..j] == raw[i..j][1..];
      LineEndAt(raw, i + 1, j);
    }
  }

  /** Whatever was written line by line, over any number of appends, is read back. */
  lemma {:induction false} ReadBack(c: Codec, before: string, entries: seq<Entry>)
    requires Faithful(c)
    ensures Parse(c, before + Lines(c, entries), |before|) == Some(entries)
    decreases |entries|
  {
    var raw := before + Lines(c, entries);
    if entries == [] {
      assert raw == before;
    } else {
      var e, rest := entries[0], entries[1..];
      var line := c.enc(e);
      LinesFirst(c, entries);
      assert raw == before + (line + "\n") + Lines(c, rest);
      ReadBack(c, before + (line + "\n"), rest);
      ParseOne(c, before, e, Lines(c, rest));
      assert entries == [e] + rest;
    }
  }

  lemma LinesFirst(c: Codec, entries: seq<Entry>)
    requires entries != []
    ensures Lines(c, entries) == (c.enc(entries[0]) + "\n") + Lines(c, entries[1..])
  {
    assert entries == [entries[0]] + entries[1..];
    LinesConcat(c, [entries[0]], entries[1..]);
  }

  lemma ParseOne(c: Codec, before: string, e: Entry, rest: string)
    requires Faithful(c)
    ensures var raw := before + (c.enc(e) + "\n") + rest;
      var p := Parse(c, raw, |before + (c.enc(e) + "\n")|);
      Parse(c, raw, |before|) == if p.None? then None else Some([e] + p.value)
  {
    var raw, line := before + (c.enc(e) + "\n") + rest, c.enc(e);
    var j := |before| + |line|;
    assert raw[|before|..j] == line && raw[j] == '\n';
    LineEndAt(raw, |before|, j);
  }
}
