/** The transcript mirror: domains/agent/mirror.go. */
module Mirror {
  import opened Json
  import opened Seqs
  import opened MemoryStore

  // Keys of transcript paths.

  predicate HasSuffix(s: string, suffix: string) {
    |suffix| <= |s| && s[|s| - |suffix|..] == suffix
  }

  function TrimSuffix(s: string, suffix: string): string {
    if HasSuffix(s, suffix) then s[..|s| - |suffix|] else s
  }

  /** strings.Join(parts, "/"). */
  function Join(parts: seq<string>): string {
    if parts == [] then "" else if |parts| == 1 then parts[0] else parts[0] + "/" + Join(parts[1..])
  }

  function TrimLast(parts: seq<string>): seq<string>
    requires parts != []
  {
    parts[|parts| - 1 := TrimSuffix(parts[|parts| - 1], JSONL)]
  }

  /** The key of a path, given the slash-separated parts of it relative to the projects directory. */
  function KeyForParts(parts: seq<string>): Option<SessionKey> {
    if |parts| < 2 || parts[0] == ".." then None
    else if |parts| == 2 && HasSuffix(parts[1], JSONL) then Some(SessionKey(parts[0], TrimSuffix(parts[1], JSONL), ""))
    else if |parts| >= 4 then Some(SessionKey(parts[0], parts[1], Join(TrimLast(parts[2..]))))
    else None
  }

  predicate NoSlash(parts: seq<string>) {
    forall i :: 0 <= i < |parts| ==> '/' !in parts[i]
  }

  lemma JoinSlash(a: seq<string>)
    requires a != [] && NoSlash(a)
    ensures '/' in Join(a) <==> |a| > 1
  {
    if |a| > 1 {
      assert Join(a)[|a[0]|] == '/';
    }
  }

  lemma {:induction false} JoinInjective(a: seq<string>, b: seq<string>)
    requires a != [] && b != [] && NoSlash(a) && NoSlash(b) && Join(a) == Join(b)
    ensures a == b
  {
    JoinSlash(a);
    JoinSlash(b);
    if |a| > 1 {
      BeforeSeparator(a[0], '/', Join(a[1..]));
      BeforeSeparator(b[0], '/', Join(b[1..]));
      assert Join(a)[|a[0]| + 1..] == Join(a[1..]) && Join(b)[|b[0]| + 1..] == Join(b[1..]);
      JoinInjective(a[1..], b[1..]);
      assert a == [a[0]] + a[1..] && b == [b[0]] + b[1..];
    }
  }

  /** Two paths have the same key exactly when they name the same file up to a ".jsonl" at the end. */
  lemma SameKeyIff(a: seq<string>, b: seq<string>)
    requires NoSlash(a) && NoSlash(b) && KeyForParts(a).Some? && KeyForParts(b).Some?
    ensures KeyForParts(a) == KeyForParts(b) <==> |a| == |b| && TrimLast(a) == TrimLast(b)
  {
    if |a| >= 4 {
      SubpathSlash(a);
    }
    if |b| >= 4 {
      SubpathSlash(b);
    }
    KeyParts(a);
    KeyParts(b);
    if |a| >= 4 && |b| >= 4 && KeyForParts(a) == KeyForParts(b) {
      JoinInjective(TrimLast(a[2..]), TrimLast(b[2..]));
    }
  }

  lemma KeyParts(a: seq<string>)
    requires KeyForParts(a).Some?
    ensures |a| == 2 ==> TrimLast(a) == [a[0], TrimSuffix(a[1], JSONL)]
    ensures |a| >= 4 ==> TrimLast(a) == [a[0], a[1]] + TrimLast(a[2..]) && TrimLast(a[2..]) == TrimLast(a)[2..]
  {
  }

  lemma SubpathSlash(a: seq<string>)
    requires NoSlash(a) && |a| >= 4
    ensures NoSlash(TrimLast(a[2..])) && Join(TrimLast(a[2..])) != ""
  {
    var sub := TrimLast(a[2..]);
    forall i | 0 <= i < |sub| ensures '/' !in sub[i] {
      assert '/' !in a[i + 2];
    }
    JoinSlash(sub);
  }

  lemma TrimsOwn(x: string)
    ensures HasSuffix(x + JSONL, JSONL) && TrimSuffix(x + JSONL, JSONL) == x
    ensures HasSuffix(x, JSONL) ==> x == TrimSuffix(x, JSONL) + JSONL
  {
  }

  lemma LastBack(a: seq<string>)
    requires a != [] && HasSuffix(a[|a| - 1], JSONL)
    ensures a == TrimLast(a)[|a| - 1 := TrimLast(a)[|a| - 1] + JSONL]
  {
    TrimsOwn(a[|a| - 1]);
  }

  /** So paths that all end in ".jsonl" have keys of their own. */
  lemma JsonlKeysDiffer(a: seq<string>, b: seq<string>)
    requires NoSlash(a) && NoSlash(b) && KeyForParts(a).Some? && KeyForParts(a) == KeyForParts(b)
    requires HasSuffix(a[|a| - 1], JSONL) && HasSuffix(b[|b| - 1], JSONL)
    ensures a == b
  {
    SameKeyIff(a, b);
    LastBack(a);
    LastBack(b);
  }

  /** The path is the key's: <project>/<session>.jsonl, or <project>/<session>/ and at least two more parts, which
      are the subpath but for a ".jsonl" at the end. */
  ghost predicate IsPathOf(parts: seq<string>, key: SessionKey) {
    || (key.subpath == "" && parts == [key.projectKey, key.sessionID + JSONL])
    || exists dirs, file :: SubpathOf(parts, dirs, file, key)
  }

  ghost predicate SubpathOf(parts: seq<string>, dirs: seq<string>, file: string, key: SessionKey) {
    && dirs != [] && key.subpath == Join(dirs + [file])
    && (parts == [key.projectKey, key.sessionID] + dirs + [file + JSONL]
        || (parts == [key.projectKey, key.sessionID] + dirs + [file] && !HasSuffix(file, JSONL)))
  }

  /** Every path inside the projects directory gets exactly the key it is a path of. */
  lemma {:induction false} KeyIs(parts: seq<string>, key: SessionKey)
    ensures KeyForParts(parts) == Some(key) <==> key.projectKey != ".." && IsPathOf(parts, key)
  {
    if KeyForParts(parts) == Some(key) {
      KeyOnlyIf(parts, key);
    }
    if key.projectKey != ".." {
      TrimsOwn(key.sessionID);
      if dirs, file :| SubpathOf(parts, dirs, file, key) {
        SubpathKey(parts, dirs, file, key);
      }
    }
  }

  lemma KeyOnlyIf(parts: seq<string>, key: SessionKey)
    requires KeyForParts(parts) == Some(key)
    ensures key.projectKey != ".." && IsPathOf(parts, key)
  {
    var last := parts[|parts| - 1];
    TrimsOwn(last);
    if |parts| == 2 {
      assert parts == [key.projectKey, key.sessionID + JSONL];
    } else {
      SubpathOnlyIf(parts, key, parts[2..|parts| - 1], last);
    }
  }

  lemma SubpathOnlyIf(parts: seq<string>, key: SessionKey, dirs: seq<string>, last: string)
    requires |parts| >= 4 && dirs == parts[2..|parts| - 1] && last == parts[|parts| - 1]
    requires KeyForParts(parts) == Some(key)
    ensures IsPathOf(parts, key)
  {
    var file := TrimSuffix(last, JSONL);
    TrimsOwn(last);
    assert TrimLast(parts[2..]) == dirs + [file];
    assert parts == [key.projectKey, key.sessionID] + dirs + [last];
    if HasSuffix(last, JSONL) {
      assert last == file + JSONL;
    }
    assert SubpathOf(parts, dirs, file, key);
  }

  lemma SubpathKey(parts: seq<string>, dirs: seq<string>, file: string, key: SessionKey)
    requires key.projectKey != ".." && SubpathOf(parts, dirs, file, key)
    ensures KeyForParts(parts) == Some(key)
  {
    TrimsOwn(file);
    var last := parts[|parts| - 1];
    assert parts == [parts[0], parts[1]] + dirs + [last] && TrimSuffix(last, JSONL) == file;
    assert TrimLast(parts[2..]) == dirs + [file];
  }

  // The buffer.

  /** A transcript_mirror frame, also the mirrorItem it becomes. */
  datatype Frame = Frame(path: string, entries: seq<Entry>)

  /** How the store takes one Append attempt, and whether the context ended in the wait before it. An
      attempt that fails may still have landed `part` of the batch: the entries at those positions, in that
      order. */
  datatype Try = Try(quit: bool, fails: bool, timedOut: bool, part: seq<nat>)

  /** What the mirror does outside itself, in order. */
  datatype Event =
    | Attempt(key: SessionKey, batch: seq<Entry>, t: Try)
    | Report(of: Option<SessionKey>)

  /** `parts` are the parts of a path relative to the projects directory, None where filepath.Rel has none;
      `size` is the length of the entries' JSON; `world` is how the n-th attempt goes. */
  datatype Config = Config(eager: bool, parts: string -> Option<seq<string>>, size: seq<Entry> -> nat,
      world: nat -> Try)

  const MAX_ENTRIES := 500
  const MAX_BYTES := 1048576
  const ATTEMPTS := 3

  function KeyOf(c: Config, path: string): Option<SessionKey> {
    match c.parts(path)
    case None => None
    case Some(parts) => KeyForParts(parts)
  }

  function EntryCount(items: seq<Frame>): nat {
    if items == [] then 0 else EntryCount(items[..|items| - 1]) + |items[|items| - 1].entries|
  }

  function ByteCount(c: Config, items: seq<Frame>): nat {
    if items == [] then 0 else ByteCount(c, items[..|items| - 1]) + c.size(items[|items| - 1].entries)
  }

  /** The distinct paths, in the order they are first seen. */
  function Paths(items: seq<Frame>): seq<string> {
    if items == [] then []
    else
      var front := Paths(items[..|items| - 1]);
      if items[|items| - 1].path in front then front else front + [items[|items| - 1].path]
  }

  function EntriesFor(items: seq<Frame>, path: string): seq<Entry> {
    if items == [] then []
    else
      var last := items[|items| - 1];
      EntriesFor(items[..|items| - 1], path) + if last.path == path then last.entries else []
  }

  /** The attempts of one append from attempt a on; the n-th attempt overall comes next. */
  function Tries(c: Config, n: nat, key: SessionKey, batch: seq<Entry>, a: nat): seq<Event>
    requires a <= ATTEMPTS
    decreases ATTEMPTS - a
  {
    if a == ATTEMPTS || (a > 0 && c.world(n).quit) then []
    else if !c.world(n).fails || c.world(n).timedOut then [Attempt(key, batch, c.world(n))]
    else [Attempt(key, batch, c.world(n))] + Tries(c, n + 1, key, batch, a + 1)
  }

  predicate Succeeded(tries: seq<Event>) {
    tries != [] && tries[|tries| - 1].Attempt? && !tries[|tries| - 1].t.fails
  }

  /** One path's group. */
  function Group(c: Config, n: nat, path: string, batch: seq<Entry>): seq<Event> {
    match KeyOf(c, path)
    case None => [Report(None)]
    case Some(key) =>
      var tries := Tries(c, n, key, batch, 0);
      tries + if Succeeded(tries) then [] else [Report(Some(key))]
  }

  function AttemptCount(es: seq<Event>): nat {
    if es == [] then 0 else AttemptCount(es[..|es| - 1]) + if es[|es| - 1].Attempt? then 1 else 0
  }

  /** The groups of the paths given, one after the other. */
  function Groups(c: Config, n: nat, items: seq<Frame>, paths: seq<string>): seq<Event> {
    if paths == [] then []
    else
      var last := paths[|paths| - 1];
      Then(c, n, Groups(c, n, items, paths[..|paths| - 1]), last, EntriesFor(items, last))
  }

  function Then(c: Config, n: nat, before: seq<Event>, path: string, batch: seq<Entry>): seq<Event> {
    before + Group(c, n + AttemptCount(before), path, batch)
  }

  function Flushed(c: Config, n: nat, items: seq<Frame>): seq<Event> {
    Groups(c, n, items, Paths(items))
  }

  /** What a frame leaves pending, and what it makes the mirror do. */
  function Enqueued(c: Config, n: nat, pending: seq<Frame>, f: Frame): (seq<Frame>, seq<Event>) {
    if f.entries == [] then (pending, [])
    else
      var p := pending + [f];
      if c.eager || EntryCount(p) > MAX_ENTRIES || ByteCount(c, p) > MAX_BYTES then ([], Flushed(c, n, p)) else (p, [])
  }

  class TranscriptMirror {
    const c: Config
    var pending: seq<Frame>
    var entries: nat
    var bytes: nat
    /** The attempts made so far. */
    var tried: nat

    /** The counters are the totals of what is pending, which is never over either limit. */
    predicate Valid()
      reads this
    {
      && entries == EntryCount(pending) && bytes == ByteCount(c, pending)
      && entries <= MAX_ENTRIES && bytes <= MAX_BYTES
    }

    constructor (c: Config)
      ensures Valid() && this.c == c && pending == [] && tried == 0
    {
      this.c := c;
      pending, entries, bytes, tried := [], 0, 0, 0;
    }

    method Enqueue(f: Frame) returns (out: seq<Event>)
      requires Valid()
      modifies this
      ensures Valid() && (pending, out) == Enqueued(c, old(tried), old(pending), f)
        && tried == old(tried) + AttemptCount(out)
    {
      out := [];
      if |f.entries| == 0 {
        return;
      }
      ghost var before := pending;
      pending := pending + [f];
      assert pending[..|before|] == before;
      entries := entries + |f.entries|;
      bytes := bytes + c.size(f.entries);
      if c.eager || entries > MAX_ENTRIES || bytes > MAX_BYTES {
        out := Flush();
      }
    }

    /** Everything pending, one append a file in first-seen order. */
    method Flush() returns (out: seq<Event>)
      modifies this
      ensures Valid() && pending == [] && out == Flushed(c, old(tried), old(pending))
        && tried == old(tried) + AttemptCount(out)
    {
      var items := pending;
      pending, entries, bytes := [], 0, 0;
      var order, byPath := Regroup(items);
      out := FlushPaths(items, order, byPath);
    }

    method FlushPaths(ghost items: seq<Frame>, order: seq<string>, byPath: map<string, seq<Entry>>)
      returns (out: seq<Event>)
      requires forall i :: 0 <= i < |order| ==> order[i] in byPath && byPath[order[i]] == EntriesFor(items, order[i])
      modifies this`tried
      ensures out == Groups(c, old(tried), items, order) && tried == old(tried) + AttemptCount(out)
    {
      out := [];
      for i := 0 to |order|
        invariant out == Groups(c, old(tried), items, order[..i]) && tried == old(tried) + AttemptCount(out)
      {
        GroupsStep(c, old(tried), items, order, i);
        ThenIs(c, old(tried), out, order[i], EntriesFor(items, order[i]), tried);
        var group := FlushPath(order[i], byPath[order[i]]);
        CountConcat(out, group);
        out := out + group;
      }
      assert order[..|order|] == order;
    }

    /** One path's entries: appended, or reported. */
    method FlushPath(path: string, batch: seq<Entry>) returns (out: seq<Event>)
      modifies this`tried
      ensures out == Group(c, old(tried), path, batch) && tried == old(tried) + AttemptCount(out)
    {
      var key := KeyOf(c, path);
      match key {
        case None =>
          out := [Report(None)];
        case Some(k) =>
          var err;
          out, err := Append(k, batch);
          if err {
            CountConcat(out, [Report(key)]);
            out := out + [Report(key)];
          }
      }
    }

    /** At most three attempts, none after one that timed out. */
    method Append(key: SessionKey, batch: seq<Entry>) returns (out: seq<Event>, err: bool)
      modifies this`tried
      ensures out == Tries(c, old(tried), key, batch, 0) && err == !Succeeded(out)
        && tried == old(tried) + AttemptCount(out)
    {
      err, out := false, [];
      ghost var all := Tries(c, tried, key, batch, 0);
      for a := 0 to ATTEMPTS
        invariant tried == old(tried) + a && |out| == a && AttemptCount(out) == a
        invariant out + Tries(c, tried, key, batch, a) == all
        invariant a > 0 ==> err && out[a - 1].Attempt? && out[a - 1].t.fails
      {
        if a > 0 && c.world(tried).quit {
          return;
        }
        AttemptsMore(c, tried, key, batch, a, out);
        var t := c.world(tried);
        out, tried := out + [Attempt(key, batch, t)], tried + 1;
        err := t.fails;
        if !err {
          return;
        }
        if t.timedOut {
          return;
        }
      }
    }
  }

  lemma GroupsEnd(c: Config, n: nat, items: seq<Frame>, paths: seq<string>, p: string)
    ensures Groups(c, n, items, paths + [p]) == Then(c, n, Groups(c, n, items, paths), p, EntriesFor(items, p))
  {
    assert (paths + [p])[..|paths|] == paths;
  }

  lemma AttemptsMore(c: Config, n: nat, key: SessionKey, batch: seq<Entry>, a: nat, before: seq<Event>)
    requires a < ATTEMPTS && !(a > 0 && c.world(n).quit)
    ensures var e := Attempt(key, batch, c.world(n));
      && AttemptCount(before + [e]) == AttemptCount(before) + 1
      && before + Tries(c, n, key, batch, a) ==
           if !c.world(n).fails || c.world(n).timedOut then before + [e]
           else before + [e] + Tries(c, n + 1, key, batch, a + 1)
  {
    var e := Attempt(key, batch, c.world(n));
    assert (before + [e])[..|before|] == before;
  }

  lemma TakeOne<T>(s: seq<T>, i: nat)
    requires i < |s|
    ensures s[..i + 1] == s[..i] + [s[i]]
  {
  }

  lemma {:induction false} GroupsStep(c: Config, n: nat, items: seq<Frame>, order: seq<string>, i: nat)
    requires i < |order|
    ensures Groups(c, n, items, order[..i + 1])
      == Then(c, n, Groups(c, n, items, order[..i]), order[i], EntriesFor(items, order[i]))
  {
    TakeOne(order, i);
    GroupsEnd(c, n, items, order[..i], order[i]);
  }

  lemma ThenIs(c: Config, n: nat, before: seq<Event>, path: string, batch: seq<Entry>, m: nat)
    requires m == n + AttemptCount(before)
    ensures Then(c, n, before, path, batch) == before + Group(c, m, path, batch)
  {
    var k := n + AttemptCount(before);
    assert k == m;
    assert Then(c, n, before, path, batch) == before + Group(c, k, path, batch);
  }

  method Regroup(items: seq<Frame>) returns (order: seq<string>, byPath: map<string, seq<Entry>>)
    ensures order == Paths(items) && forall p :: p in order ==> p in byPath && byPath[p] == EntriesFor(items, p)
  {
    order, byPath := [], map[];
    for i := 0 to |items|
      invariant order == Paths(items[..i]) && forall p :: p in byPath <==> p in order
      invariant forall p :: p in byPath ==> byPath[p] == EntriesFor(items[..i], p)
    {
      assert items[..i + 1][..i] == items[..i];
      var it := items[i];
      forall p | p !in order ensures EntriesFor(items[..i], p) == [] {
        NoEntries(items[..i], p);
      }
      if it.path !in byPath {
        order := order + [it.path];
        byPath := byPath[it.path := []];
      }
      byPath := byPath[it.path := byPath[it.path] + it.entries];
    }
    assert items[..|items|] == items;
  }

  lemma {:induction false} NoEntries(items: seq<Frame>, path: string)
    requires path !in Paths(items)
    ensures EntriesFor(items, path) == []
  {
    if items != [] {
      NoEntries(items[..|items| - 1], path);
    }
  }

  lemma {:induction false} CountConcat(a: seq<Event>, b: seq<Event>)
    ensures AttemptCount(a + b) == AttemptCount(a) + AttemptCount(b)
  {
    if b == [] {
      assert a + b == a;
    } else {
      CountConcat(a, b[..|b| - 1]);
      assert (a + b)[..|a + b| - 1] == a + b[..|b| - 1];
    }
  }
}
