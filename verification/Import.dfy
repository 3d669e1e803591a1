/** Importing a transcript file in batches: domains/sessions/import_to_store.go. */
module Import {
  import opened Json
  import opened Hex
  import opened Seqs

  const MAX_BYTES := 1048576

  /** One line's entry and the line's length. */
  datatype Item = Item(e: Entry, length: nat)

  /** bytes.TrimRight(line, "\r\n"). */
  function TrimRight(s: string): string {
    if s != "" && (s[|s| - 1] == '\r' || s[|s| - 1] == '\n') then TrimRight(s[..|s| - 1]) else s
  }

  /** The items of the non-blank lines, up to the first that is not a JSON object. */
  datatype Parsed = Parsed(items: seq<Item>, bad: bool)

  function ParseLine(c: Codec, line: string): Parsed {
    var text := TrimRight(line);
    if text == "" then Parsed([], false)
    else match c.dec(text)
      case None => Parsed([], true)
      case Some(e) => Parsed([Item(e, |text|)], false)
  }

  function After(p: Parsed, q: Parsed): Parsed {
    if p.bad then p else Parsed(p.items + q.items, q.bad)
  }

  function ParseLines(c: Codec, raw: string, i: nat): Parsed
    requires i <= |raw|
    decreases |raw| - i, 1
  {
    After(ParseLine(c, raw[i..LineEnd(raw, i)]), ParseRest(c, raw, LineEnd(raw, i)))
  }

  /** What follows the line that ends at j. */
  function ParseRest(c: Codec, raw: string, j: nat): Parsed
    requires j <= |raw|
    decreases |raw| - j, 0
  {
    if j == |raw| then Parsed([], false) else ParseLines(c, raw, j + 1)
  }

  function Bytes(b: seq<Item>): nat {
    if b == [] then 0 else Bytes(b[..|b| - 1]) + b[|b| - 1].length
  }

  function Concat(bs: seq<seq<Item>>): seq<Item> {
    if bs == [] then [] else Concat(bs[..|bs| - 1]) + bs[|bs| - 1]
  }

  /** The batch has reached a limit. */
  predicate Full(b: seq<Item>, size: nat) {
    |b| >= size || Bytes(b) >= MAX_BYTES
  }

  /** The batch had not reached a limit before its last line: it is not empty, not over the size, and without
      its last line under 1 MiB. */
  predicate JustFilled(b: seq<Item>, size: nat) {
    b != [] && !Full(b[..|b| - 1], size)
  }

  /** It reached a limit with its last line. */
  predicate Cut(b: seq<Item>, size: nat) {
    JustFilled(b, size) && Full(b, size)
  }

  predicate AllCut(bs: seq<seq<Item>>, size: nat) {
    forall k {:trigger bs[k]} :: 0 <= k < |bs| ==> Cut(bs[k], size)
  }

  datatype Status = Reading | Done | BadLine | AppendFailed | ReadFailed

  lemma ConcatEnd(bs: seq<seq<Item>>, b: seq<Item>)
    ensures Concat(bs + [b]) == Concat(bs) + b
  {
    assert (bs + [b])[..|bs|] == bs;
  }

  lemma AddItem(b: seq<Item>, x: Item, size: nat)
    requires !Full(b, size)
    ensures JustFilled(b + [x], size) && Bytes(b + [x]) == Bytes(b) + x.length
  {
    assert (b + [x])[..|b|] == b;
  }

  /** Each Append before the n-th worked. */
  predicate Worked(fails: nat -> bool, n: nat) {
    forall k :: 0 <= k < n ==> !fails(k)
  }

  /** One line: skipped, batched, or batched and the batch appended. */
  method TakeLine(c: Codec, line: string, size: nat, fails: nat -> bool, appended: seq<seq<Item>>, batch: seq<Item>,
                  nbytes: nat)
    returns (done: seq<seq<Item>>, left: seq<Item>, leftBytes: nat, status: Status)
    requires size > 0 && AllCut(appended, size) && !Full(batch, size) && nbytes == Bytes(batch)
      && Worked(fails, |appended|)
    ensures AllCut(done, size) && Worked(fails, |done|)
    ensures status == BadLine <==> ParseLine(c, line).bad
    ensures status == Reading || status == BadLine || status == AppendFailed
    ensures Concat(done) + left == Concat(appended) + batch + ParseLine(c, line).items
    ensures if status == AppendFailed then JustFilled(left, size) && fails(|done|)
      else !Full(left, size) && leftBytes == Bytes(left)
  {
    done, left, leftBytes, status := appended, batch, nbytes, Reading;
    var text := TrimRight(line);
    if |text| > 0 {
      var e := c.dec(text);
      if e.None? {
        return appended, batch, nbytes, BadLine;
      }
      var x := Item(e.value, |text|);
      AddItem(batch, x, size);
      assert Concat(appended) + (batch + [x]) == Concat(appended) + batch + [x];
      left, leftBytes := batch + [x], nbytes + |text|;
      if |left| >= size || leftBytes >= MAX_BYTES {
        if fails(|appended|) {
          return appended, left, leftBytes, AppendFailed;
        }
        ConcatEnd(appended, left);
        done, left, leftBytes := appended + [left], [], 0;
      }
    }
  }

  /** What is appended is, in order, every line's entry; no batch is empty, over the size or over 1 MiB without its
      last line, and every batch but the last reached a limit. On a bad line, a failed read or a failed append, what
      was appended is whole batches of the first lines. */
  predicate Imported(p: Parsed, size: nat, readFails: bool, appended: seq<seq<Item>>, rest: seq<Item>, status: Status) {
    match status
    case Reading => false
    case Done => !p.bad && !readFails && rest == [] && Concat(appended) == p.items && AllButLastCut(appended, size)
    case BadLine => p.bad && AllCut(appended, size) && !Full(rest, size) && Concat(appended) + rest == p.items
    case ReadFailed =>
      readFails && !p.bad && AllCut(appended, size) && !Full(rest, size) && Concat(appended) + rest == p.items
    case AppendFailed => AllCut(appended, size) && JustFilled(rest, size) && Concat(appended) + rest <= p.items
  }

  predicate AllButLastCut(bs: seq<seq<Item>>, size: nat) {
    bs != [] ==> AllCut(bs[..|bs| - 1], size) && JustFilled(bs[|bs| - 1], size)
  }

  /** The last batch, if there is one. */
  method LastBatch(size: nat, fails: nat -> bool, appended: seq<seq<Item>>, batch: seq<Item>)
    returns (done: seq<seq<Item>>, rest: seq<Item>, status: Status)
    requires AllCut(appended, size) && !Full(batch, size) && Worked(fails, |appended|)
    ensures Concat(done) + rest == Concat(appended) + batch && Worked(fails, |done|)
    ensures status == Done || status == AppendFailed
    ensures if status == Done
      then rest == [] && AllButLastCut(done, size)
      else fails(|done|) && AllCut(done, size) && JustFilled(rest, size)
  {
    if |batch| == 0 {
      return appended, [], Done;
    }
    NotFullBefore(batch, size);
    if fails(|appended|) {
      return appended, batch, AppendFailed;
    }
    ConcatEnd(appended, batch);
    assert (appended + [batch])[..|appended|] == appended;
    return appended + [batch], [], Done;
  }

  lemma JoinedEnd(items: seq<Item>)
    ensures Joined(items, Parsed([], false)) == Parsed(items, false)
  {
  }

  /** The end of the file, or a failed read after its last line. */
  method AtEnd(size: nat, fails: nat -> bool, readFails: bool, appended: seq<seq<Item>>, batch: seq<Item>)
    returns (done: seq<seq<Item>>, rest: seq<Item>, status: Status)
    requires AllCut(appended, size) && !Full(batch, size) && Worked(fails, |appended|)
    ensures Worked(fails, |done|) && (status == AppendFailed ==> fails(|done|))
    ensures Imported(Parsed(Concat(appended) + batch, false), size, readFails, done, rest, status)
  {
    if readFails {
      return appended, batch, ReadFailed;
    }
    done, rest, status := LastBatch(size, fails, appended, batch);
    if status == Done {
      assert Concat(done) + rest == Concat(done);
    }
  }

  lemma NotFullBefore(b: seq<Item>, size: nat)
    requires b != [] && !Full(b, size)
    ensures JustFilled(b, size)
  {
  }

  /** What parsing the rest adds to the items before it. */
  function Joined(items: seq<Item>, p: Parsed): Parsed {
    Parsed(items + p.items, p.bad)
  }

  lemma JoinedStep(items: seq<Item>, p: Parsed, q: Parsed)
    requires p.bad ==> p.items == []
    ensures Joined(items, After(p, q)) == if p.bad then Parsed(items, true) else Joined(items + p.items, q)
  {
    if !p.bad {
      assert items + (p.items + q.items) == items + p.items + q.items;
    } else {
      assert items + [] == items;
    }
  }

  /** `fails` is which Append fails, `readFails` whether reading ends with an error and not at the end of the
      file; `rest` is what was read and not appended. */
  method AppendJSONLInBatches(c: Codec, raw: string, size: nat, fails: nat -> bool, readFails: bool)
    returns (appended: seq<seq<Item>>, rest: seq<Item>, status: Status)
    requires size > 0
    ensures Worked(fails, |appended|) && (status == AppendFailed ==> fails(|appended|))
    ensures Imported(ParseLines(c, raw, 0), size, readFails, appended, rest, status)
  {
    var nbytes := 0;
    var i := 0;
    appended, rest, status := [], [], Reading;
    while true
      invariant i <= |raw|
      invariant AllCut(appended, size) && !Full(rest, size) && nbytes == Bytes(rest) && Worked(fails, |appended|)
      invariant ParseLines(c, raw, 0) == Joined(Concat(appended) + rest, ParseLines(c, raw, i))
      decreases |raw| - i
    {
      var j := LineEnd(raw, i);
      JoinedStep(Concat(appended) + rest, ParseLine(c, raw[i..j]), ParseRest(c, raw, j));
      appended, rest, nbytes, status := TakeLine(c, raw[i..j], size, fails, appended, rest, nbytes);
      if status != Reading {
        Prefix(Concat(appended) + rest, ParseRest(c, raw, j));
        return;
      }
      if j == |raw| {
        JoinedEnd(Concat(appended) + rest);
        appended, rest, status := AtEnd(size, fails, readFails, appended, rest);
        return;
      }
      i := j + 1;
    }
  }

  lemma Prefix(items: seq<Item>, p: Parsed)
    ensures items <= Joined(items, p).items
  {
  }

  // The batching is the only one.

  lemma {:induction false} BytesGrow(b: seq<Item>, k: nat)
    requires k <= |b|
    ensures Bytes(b[..k]) <= Bytes(b)
    decreases |b|
  {
    if k < |b| {
      BytesGrow(b[..|b| - 1], k);
      assert b[..|b| - 1][..k] == b[..k];
    } else {
      assert b[..k] == b;
    }
  }

  /** Of two ways to start a run of lines with a just-filled batch neither is longer. */
  lemma SameLength(a: seq<Item>, b: seq<Item>, x: seq<Item>, y: seq<Item>, size: nat)
    requires Cut(a, size) && Cut(b, size) && a + x == b + y
    ensures |a| <= |b|
  {
    if |b| < |a| {
      var s := a + x;
      assert b == s[..|b|] && a == s[..|a|];
      assert a[..|a| - 1][..|b|] == b;
      BytesGrow(a[..|a| - 1], |b|);
    }
  }

  lemma RestIsNotCut(a: seq<Item>, x: seq<Item>, rest: seq<Item>, size: nat)
    requires Full(a, size) && a + x == rest
    ensures Full(rest, size)
  {
    assert rest[..|a|] == a;
    BytesGrow(rest, |a|);
  }

  function ConcatFrom(bs: seq<seq<Item>>): seq<Item> {
    if bs == [] then [] else bs[0] + ConcatFrom(bs[1..])
  }

  lemma {:induction false} ConcatBothWays(bs: seq<seq<Item>>)
    ensures Concat(bs) == ConcatFrom(bs)
  {
    if |bs| > 1 {
      var front, last := bs[..|bs| - 1], bs[|bs| - 1];
      ConcatBothWays(front);
      ConcatBothWays(bs[1..]);
      ConcatBothWays(bs[1..|bs| - 1]);
      assert bs[1..][..|bs| - 2] == bs[1..|bs| - 1] && front[1..] == bs[1..|bs| - 1];
      assert bs[0] + (Concat(bs[1..|bs| - 1]) + last) == bs[0] + Concat(bs[1..|bs| - 1]) + last;
    } else if |bs| == 1 {
      assert bs[1..] == [] && bs[..0] == [];
      assert Concat(bs[..0]) + bs[0] == bs[0] + ConcatFrom(bs[1..]);
    }
  }

  lemma {:induction false} UniqueFrom(a: seq<seq<Item>>, x: seq<Item>, b: seq<seq<Item>>, y: seq<Item>, size: nat)
    requires AllCut(a, size) && AllCut(b, size) && !Full(x, size) && !Full(y, size)
    requires ConcatFrom(a) + x == ConcatFrom(b) + y
    ensures a == b && x == y
    decreases |a|
  {
    FirstAndRest(a, x);
    FirstAndRest(b, y);
    if a != [] && b != [] {
      var s, t := ConcatFrom(a[1..]) + x, ConcatFrom(b[1..]) + y;
      SameLength(a[0], b[0], s, t, size);
      SameLength(b[0], a[0], t, s, size);
      assert (a[0] + s)[..|a[0]|] == a[0] && (b[0] + t)[..|b[0]|] == b[0];
      assert (a[0] + s)[|a[0]|..] == s && (b[0] + t)[|b[0]|..] == t;
      assert AllCut(a[1..], size) && AllCut(b[1..], size);
      UniqueFrom(a[1..], x, b[1..], y, size);
    } else if a != [] {
      RestIsNotCut(a[0], ConcatFrom(a[1..]) + x, y, size);
    } else if b != [] {
      RestIsNotCut(b[0], ConcatFrom(b[1..]) + y, x, size);
    }
  }

  lemma FirstAndRest(a: seq<seq<Item>>, x: seq<Item>)
    ensures a == [] ==> ConcatFrom(a) + x == x
    ensures a != [] ==> ConcatFrom(a) + x == a[0] + (ConcatFrom(a[1..]) + x) && a == [a[0]] + a[1..]
  {
    if a != [] {
      assert a[0] + ConcatFrom(a[1..]) + x == a[0] + (ConcatFrom(a[1..]) + x);
    }
  }

  /** Any two batchings of the same lines, each batch filled by its last line and a rest that is not full, are
      the same: the limits alone decide where every batch ends. */
  lemma BatchingUnique(a: seq<seq<Item>>, x: seq<Item>, b: seq<seq<Item>>, y: seq<Item>, size: nat)
    requires AllCut(a, size) && AllCut(b, size) && !Full(x, size) && !Full(y, size)
    requires Concat(a) + x == Concat(b) + y
    ensures a == b && x == y
  {
    ConcatBothWays(a);
    ConcatBothWays(b);
    UniqueFrom(a, x, b, y, size);
  }

  // What a file's lines say.

  predicate IsEnds(s: string) {
    forall i :: 0 <= i < |s| ==> s[i] == '\r' || s[i] == '\n'
  }

  /** Text that does not end in a line end. */
  predicate IsText(s: string) {
    s == "" || (s[|s| - 1] != '\r' && s[|s| - 1] != '\n')
  }

  lemma {:induction false} TrimsEnds(text: string, ends: string)
    requires IsText(text) && IsEnds(ends)
    ensures TrimRight(text + ends) == text
    decreases |ends|
  {
    if ends == "" {
      assert text + ends == text;
    } else {
      TrimsEnds(text, ends[..|ends| - 1]);
      assert (text + ends)[..|text + ends| - 1] == text + ends[..|ends| - 1];
    }
  }

  /** A line is skipped if it is blank but for its end, bad if its text decodes to no object, and otherwise one item
      as long as its text. */
  lemma {:induction false} LineIs(c: Codec, text: string, ends: string)
    requires IsText(text) && IsEnds(ends)
    ensures var p := ParseLine(c, text + ends);
      && (p.bad <==> text != "" && c.dec(text) == None)
      && (p.items == [] <==> text == "" || c.dec(text) == None)
      && (text != "" && c.dec(text).Some? ==> p.items == [Item(c.dec(text).value, |text|)])
  {
    TrimsEnds(text, ends);
  }

  /** Its texts end in no carriage return, as JSON objects do not. */
  ghost predicate Writes(c: Codec) {
    Faithful(c) && forall e :: IsText(c.enc(e))
  }

  function ItemsOf(c: Codec, entries: seq<Entry>): (items: seq<Item>)
    ensures |items| == |entries|
    ensures forall k :: 0 <= k < |items| ==> items[k] == Item(entries[k], |c.enc(entries[k])|)
  {
    seq(|entries|, k requires 0 <= k < |entries| => Item(entries[k], |c.enc(entries[k])|))
  }

  lemma LineOf(c: Codec, before: string, line: string, rest: string)
    requires '\n' !in line
    ensures var raw := before + (line + "\n") + rest;
      ParseLines(c, raw, |before|) == After(ParseLine(c, line), ParseLines(c, raw, |before + (line + "\n")|))
  {
    var raw := before + (line + "\n") + rest;
    var j := |before| + |line|;
    assert raw[|before|..j] == line && raw[j] == '\n';
    LineEndAt(raw, |before|, j);
  }

  lemma AfterOne(x: Item, items: seq<Item>, p: Parsed)
    ensures After(Parsed([x], false), Joined(items, p)) == Joined([x] + items, p)
  {
    assert [x] + (items + p.items) == [x] + items + p.items;
  }

  lemma ImportOne(c: Codec, before: string, e: Entry, rest: string)
    requires Writes(c)
    ensures var line := c.enc(e) + "\n";
      var raw := before + line + rest;
      ParseLines(c, raw, |before|) == After(Parsed([Item(e, |c.enc(e)|)], false), ParseLines(c, raw, |before + line|))
  {
    LineOf(c, before, c.enc(e), rest);
    LineIs(c, c.enc(e), "");
    assert c.enc(e) + "" == c.enc(e);
  }

  lemma ItemsFirst(c: Codec, entries: seq<Entry>)
    requires entries != []
    ensures ItemsOf(c, entries) == [Item(entries[0], |c.enc(entries[0])|)] + ItemsOf(c, entries[1..])
  {
  }

  /** What was written line by line is imported entry by entry, whatever comes before and after. */
  lemma {:induction false} ImportReadsBack(c: Codec, before: string, entries: seq<Entry>, rest: string)
    requires Writes(c)
    ensures var raw := before + Lines(c, entries) + rest;
      ParseLines(c, raw, |before|) == Joined(ItemsOf(c, entries), ParseLines(c, raw, |before + Lines(c, entries)|))
    decreases |entries|
  {
    if entries == [] {
      assert before + Lines(c, entries) == before;
    } else {
      var e, more := entries[0], entries[1..];
      var line := c.enc(e) + "\n";
      LinesFirst(c, entries);
      Associative(before, line, Lines(c, more));
      Associative(before + line, Lines(c, more), rest);
      ImportOne(c, before, e, Lines(c, more) + rest);
      ImportReadsBack(c, before + line, more, rest);
      AfterOne(Item(e, |c.enc(e)|), ItemsOf(c, more),
        ParseLines(c, before + Lines(c, entries) + rest, |before + Lines(c, entries)|));
      ItemsFirst(c, entries);
    }
  }

  /** And a line whose text is no object ends the import there, whatever follows it. */
  lemma {:induction false} BadLineStops(c: Codec, entries: seq<Entry>, text: string, rest: string)
    requires Writes(c) && IsText(text) && text != "" && '\n' !in text && c.dec(text) == None
    ensures ParseLines(c, Lines(c, entries) + ((text + "\n") + rest), 0) == Parsed(ItemsOf(c, entries), true)
  {
    var before := Lines(c, entries);
    assert "" + before == before;
    ImportReadsBack(c, "", entries, (text + "\n") + rest);
    LineIs(c, text, "");
    assert text + "" == text;
    LineOf(c, before, text, rest);
    assert before + (text + "\n") + rest == before + ((text + "\n") + rest);
  }
}
