/** What the mirror keeps in order: domains/agent/mirror.go. */
module MirrorOrder {
  import opened Json
  import opened Seqs
  import opened Summary
  import opened MemoryStore
  import opened Mirror

  // A store that never fails.

  /** A frame arrives, or the read loop asks for a flush. */
  datatype MirrorOp = Arrive(f: Frame) | FlushNow

  datatype MirrorRun = MirrorRun(pending: seq<Frame>, tried: nat, out: seq<Event>)

  function StepMirror(c: Config, r: MirrorRun, op: MirrorOp): MirrorRun {
    var (p, es) := if op.Arrive? then Enqueued(c, r.tried, r.pending, op.f) else ([], Flushed(c, r.tried, r.pending));
    MirrorRun(p, r.tried + AttemptCount(es), r.out + es)
  }

  function RunMirror(c: Config, ops: seq<MirrorOp>): MirrorRun {
    if ops == [] then MirrorRun([], 0, []) else StepMirror(c, RunMirror(c, ops[..|ops| - 1]), ops[|ops| - 1])
  }

  function FrameOf(op: MirrorOp): seq<Frame> {
    if op.Arrive? then [op.f] else []
  }

  function Frames(ops: seq<MirrorOp>): seq<Frame> {
    if ops == [] then [] else Frames(ops[..|ops| - 1]) + FrameOf(ops[|ops| - 1])
  }

  /** What the successful appends under one key add up to. */
  function Stored(es: seq<Event>, key: SessionKey): seq<Entry> {
    if es == [] then []
    else
      var e := es[|es| - 1];
      Stored(es[..|es| - 1], key) + if e.Attempt? && e.key == key && !e.t.fails then e.batch else []
  }

  /** What has arrived for one key, in order. */
  function Arrived(c: Config, frames: seq<Frame>, key: SessionKey): seq<Entry> {
    if frames == [] then []
    else
      var f := frames[|frames| - 1];
      Arrived(c, frames[..|frames| - 1], key) + if KeyOf(c, f.path) == Some(key) then f.entries else []
  }

  ghost predicate NeverFails(c: Config) {
    forall n :: !c.world(n).fails
  }

  function KeyEntries(c: Config, items: seq<Frame>, paths: seq<string>, key: SessionKey): seq<Entry> {
    if paths == [] then []
    else
      var p := paths[|paths| - 1];
      KeyEntries(c, items, paths[..|paths| - 1], key) + if KeyOf(c, p) == Some(key) then EntriesFor(items, p) else []
  }

  lemma {:induction false} StoredConcat(a: seq<Event>, b: seq<Event>, key: SessionKey)
    ensures Stored(a + b, key) == Stored(a, key) + Stored(b, key)
  {
    if b == [] {
      assert a + b == a;
    } else {
      var front, e := b[..|b| - 1], b[|b| - 1];
      StoredConcat(a, front, key);
      assert (a + b)[..|a + b| - 1] == a + front;
      var last := if e.Attempt? && e.key == key && !e.t.fails then e.batch else [];
      Associative(Stored(a, key), Stored(front, key), last);
    }
  }

  lemma GroupStored(c: Config, n: nat, path: string, batch: seq<Entry>, key: SessionKey)
    requires NeverFails(c)
    ensures Stored(Group(c, n, path, batch), key) == if KeyOf(c, path) == Some(key) then batch else []
  {
    var k := KeyOf(c, path);
    if k == None {
      assert [Report(None)][..0] == [];
    } else {
      var e := Attempt(k.value, batch, c.world(n));
      assert Tries(c, n, k.value, batch, 0) == [e];
      assert [e] + [] == [e] && [e][..0] == [];
    }
  }

  lemma ThenStored(c: Config, n: nat, before: seq<Event>, path: string, batch: seq<Entry>, key: SessionKey)
    requires NeverFails(c)
    ensures Stored(Then(c, n, before, path, batch), key)
      == Stored(before, key) + if KeyOf(c, path) == Some(key) then batch else []
  {
    StoredConcat(before, Group(c, n + AttemptCount(before), path, batch), key);
    GroupStored(c, n + AttemptCount(before), path, batch, key);
  }

  lemma {:induction false} GroupsStored(c: Config, n: nat, items: seq<Frame>, paths: seq<string>, key: SessionKey)
    requires NeverFails(c)
    ensures Stored(Groups(c, n, items, paths), key) == KeyEntries(c, items, paths, key)
  {
    if paths != [] {
      var front, last := paths[..|paths| - 1], paths[|paths| - 1];
      GroupsStored(c, n, items, front, key);
      ThenStored(c, n, Groups(c, n, items, front), last, EntriesFor(items, last), key);
    }
  }

  predicate Distinct(paths: seq<string>) {
    paths == [] || (paths[|paths| - 1] !in paths[..|paths| - 1] && Distinct(paths[..|paths| - 1]))
  }

  predicate HasPath(items: seq<Frame>, p: string) {
    exists f :: f in items && f.path == p
  }

  lemma HasPathEnd(front: seq<Frame>, last: Frame, p: string)
    ensures HasPath(front + [last], p) <==> HasPath(front, p) || last.path == p
  {
    if last.path == p {
      assert last in front + [last];
    }
    if HasPath(front, p) {
      var f :| f in front && f.path == p;
      assert f in front + [last];
    }
  }

  lemma DistinctEnd(paths: seq<string>, p: string)
    requires Distinct(paths) && p !in paths
    ensures Distinct(paths + [p])
  {
    assert (paths + [p])[..|paths|] == paths;
  }

  lemma PathsEnd(front: seq<Frame>, last: Frame)
    ensures Paths(front + [last]) == if last.path in Paths(front) then Paths(front) else Paths(front) + [last.path]
  {
    assert (front + [last])[..|front|] == front;
  }

  lemma {:induction false} PathsOf(items: seq<Frame>)
    ensures Distinct(Paths(items)) && forall p :: p in Paths(items) <==> HasPath(items, p)
  {
    if items != [] {
      var front, last := items[..|items| - 1], items[|items| - 1];
      PathsOf(front);
      assert items == front + [last];
      PathsEnd(front, last);
      if last.path !in Paths(front) {
        DistinctEnd(Paths(front), last.path);
      }
      forall p ensures p in Paths(items) <==> HasPath(items, p) {
        HasPathEnd(front, last, p);
      }
    }
  }

  // When a flush keeps the order of arrival.

  /** Three frames in turn for one path, another of the same key, and the first again: the flush, which groups by
      path, appends the third before the second. */
  predicate Crosses(c: Config, paths: seq<string>, i: nat, j: nat, k: nat)
    requires i < j < k < |paths|
  {
    paths[i] == paths[k] && paths[i] != paths[j] && KeyOf(c, paths[i]).Some? && KeyOf(c, paths[i]) == KeyOf(c, paths[j])
  }

  ghost predicate Crossed(c: Config, paths: seq<string>) {
    exists i, j, k :: 0 <= i < j < k < |paths| && Crosses(c, paths, i, j, k)
  }

  function PathList(items: seq<Frame>): (r: seq<string>)
    ensures |r| == |items| && forall i :: 0 <= i < |items| ==> r[i] == items[i].path
  {
    seq(|items|, i requires 0 <= i < |items| => items[i].path)
  }

  lemma EntriesForEnd(items: seq<Frame>, f: Frame, p: string)
    ensures EntriesFor(items + [f], p) == EntriesFor(items, p) + if f.path == p then f.entries else []
  {
    assert (items + [f])[..|items|] == items;
  }

  lemma {:induction false} KeyEntriesElsewhere(c: Config, items: seq<Frame>, f: Frame, paths: seq<string>,
                                               key: SessionKey)
    requires forall q :: q in paths && KeyOf(c, q) == Some(key) ==> q != f.path
    ensures KeyEntries(c, items + [f], paths, key) == KeyEntries(c, items, paths, key)
  {
    if paths != [] {
      var last := paths[|paths| - 1];
      assert last in paths;
      KeyEntriesElsewhere(c, items, f, paths[..|paths| - 1], key);
      EntriesForEnd(items, f, last);
    }
  }

  /** No path after p has p's key. */
  ghost predicate LastOfKey(c: Config, paths: seq<string>, p: string) {
    forall a, b :: 0 <= a < b < |paths| && paths[a] == p ==> KeyOf(c, paths[b]) != KeyOf(c, p)
  }

  lemma {:induction false} KeyEntriesLast(c: Config, items: seq<Frame>, f: Frame, paths: seq<string>, key: SessionKey)
    requires Distinct(paths) && f.path in paths && KeyOf(c, f.path) == Some(key) && LastOfKey(c, paths, f.path)
    ensures KeyEntries(c, items + [f], paths, key) == KeyEntries(c, items, paths, key) + f.entries
  {
    var front, last := paths[..|paths| - 1], paths[|paths| - 1];
    assert paths == front + [last];
    EntriesForEnd(items, f, last);
    if last == f.path {
      KeyEntriesElsewhere(c, items, f, front, key);
      Associative(KeyEntries(c, items, front, key), EntriesFor(items, last), f.entries);
    } else {
      var a :| 0 <= a < |front| && front[a] == f.path;
      assert KeyOf(c, last) != Some(key);
      KeyEntriesLast(c, items, f, front, key);
    }
  }

  /** Of two paths in first-seen order, the first is seen before the second. */
  lemma {:induction false} SeenBefore(items: seq<Frame>, a: nat, b: nat) returns (i: nat, j: nat)
    requires a < b < |Paths(items)|
    ensures i < j < |items| && items[i].path == Paths(items)[a] && items[j].path == Paths(items)[b]
  {
    var front, last := items[..|items| - 1], items[|items| - 1];
    var paths := Paths(front);
    if b < |paths| {
      i, j := SeenBefore(front, a, b);
    } else {
      PathsOf(front);
      assert paths[a] in paths;
      var f :| f in front && f.path == paths[a];
      i :| 0 <= i < |front| && front[i] == f;
      j := |front|;
    }
  }

  lemma DistinctAt(paths: seq<string>, a: nat, b: nat)
    requires Distinct(paths) && a < b < |paths|
    ensures paths[a] != paths[b]
  {
    if b == |paths| - 1 {
      assert paths[a] in paths[..b];
    } else {
      DistinctAt(paths[..|paths| - 1], a, b);
    }
  }

  lemma NotCrossedLast(c: Config, items: seq<Frame>, f: Frame)
    requires !Crossed(c, PathList(items + [f])) && KeyOf(c, f.path).Some?
    ensures LastOfKey(c, Paths(items), f.path)
  {
    var paths, all := Paths(items), PathList(items + [f]);
    forall a, b | 0 <= a < b < |paths| && paths[a] == f.path ensures KeyOf(c, paths[b]) != KeyOf(c, f.path) {
      PathsOf(items);
      DistinctAt(paths, a, b);
      var i, j := SeenBefore(items, a, b);
      assert all[i] == paths[a] && all[j] == paths[b] && all[|items|] == f.path;
      assert !Crosses(c, all, i, j, |items|);
    }
  }

  lemma NotCrossedFront(c: Config, items: seq<Frame>, f: Frame)
    requires !Crossed(c, PathList(items + [f]))
    ensures !Crossed(c, PathList(items))
  {
    var paths, all := PathList(items), PathList(items + [f]);
    if i, j, k :| 0 <= i < j < k < |paths| && Crosses(c, paths, i, j, k) {
      assert all[i] == paths[i] && all[j] == paths[j] && all[k] == paths[k];
      assert Crosses(c, all, i, j, k);
    }
  }

  lemma {:induction false} GroupedInOrder(c: Config, items: seq<Frame>, key: SessionKey)
    requires !Crossed(c, PathList(items))
    ensures KeyEntries(c, items, Paths(items), key) == Arrived(c, items, key)
  {
    if items != [] {
      var front, f := items[..|items| - 1], items[|items| - 1];
      FrontLast(items);
      NotCrossedFront(c, front, f);
      GroupedInOrder(c, front, key);
      GroupedStep(c, front, f, key);
    }
  }

  lemma GroupedStep(c: Config, front: seq<Frame>, f: Frame, key: SessionKey)
    requires !Crossed(c, PathList(front + [f])) && KeyEntries(c, front, Paths(front), key) == Arrived(c, front, key)
    ensures KeyEntries(c, front + [f], Paths(front + [f]), key) == Arrived(c, front + [f], key)
  {
    PathsOf(front);
    PathsEnd(front, f);
    ArrivedEnd(c, front, f, key);
    if KeyOf(c, f.path) == Some(key) && f.path in Paths(front) {
      NotCrossedLast(c, front, f);
      KeyEntriesLast(c, front, f, Paths(front), key);
    } else if f.path !in Paths(front) {
      NewPath(c, front, f, key);
    } else {
      KeyEntriesElsewhere(c, front, f, Paths(front), key);
    }
  }

  lemma NewPath(c: Config, front: seq<Frame>, f: Frame, key: SessionKey)
    requires f.path !in Paths(front)
    ensures KeyEntries(c, front + [f], Paths(front) + [f.path], key)
         == KeyEntries(c, front, Paths(front), key) + if KeyOf(c, f.path) == Some(key) then f.entries else []
  {
    KeyEntriesElsewhere(c, front, f, Paths(front), key);
    NewEntries(front, f);
    KeyEntriesEnd(c, front + [f], Paths(front), f.path, key);
  }

  lemma NewEntries(front: seq<Frame>, f: Frame)
    requires f.path !in Paths(front)
    ensures EntriesFor(front + [f], f.path) == f.entries
  {
    NoEntries(front, f.path);
    EntriesForEnd(front, f, f.path);
  }

  lemma KeyEntriesEnd(c: Config, items: seq<Frame>, paths: seq<string>, p: string, key: SessionKey)
    ensures KeyEntries(c, items, paths + [p], key)
      == KeyEntries(c, items, paths, key) + if KeyOf(c, p) == Some(key) then EntriesFor(items, p) else []
  {
    assert (paths + [p])[..|paths|] == paths;
  }

  /** A flush that nothing crosses appends, under each key, what was pending for it in the order it arrived. */
  lemma FlushStores(c: Config, n: nat, items: seq<Frame>, key: SessionKey)
    requires NeverFails(c) && !Crossed(c, PathList(items))
    ensures Stored(Flushed(c, n, items), key) == Arrived(c, items, key)
  {
    GroupsStored(c, n, items, Paths(items), key);
    GroupedInOrder(c, items, key);
  }

  lemma ArrivedEnd(c: Config, frames: seq<Frame>, f: Frame, key: SessionKey)
    ensures Arrived(c, frames + [f], key)
      == Arrived(c, frames, key) + if KeyOf(c, f.path) == Some(key) then f.entries else []
  {
    assert (frames + [f])[..|frames|] == frames;
  }

  /** After every frame and every flush at most 500 entries and 1 MiB are pending, and in eager mode none. */
  lemma {:induction false} PendingBounded(c: Config, ops: seq<MirrorOp>)
    ensures var p := RunMirror(c, ops).pending;
      EntryCount(p) <= MAX_ENTRIES && ByteCount(c, p) <= MAX_BYTES && (c.eager ==> p == [])
  {
    if ops != [] {
      PendingBounded(c, ops[..|ops| - 1]);
    }
  }

  lemma {:induction false} SameArrivals(c: Config, d: Config, frames: seq<Frame>, key: SessionKey)
    requires c.parts == d.parts
    ensures Arrived(c, frames, key) == Arrived(d, frames, key)
  {
    if frames != [] {
      SameArrivals(c, d, frames[..|frames| - 1], key);
    }
  }

  /** The successful appends as the in-memory store sees them, at any times. */
  function AppendOps(es: seq<Event>, clock: nat -> int): seq<Op> {
    if es == [] then []
    else
      var e := es[|es| - 1];
      AppendOps(es[..|es| - 1], clock)
        + if e.Attempt? && !e.t.fails then [AppendOp(e.key, e.batch, clock(|es|))] else []
  }

  lemma RunOne(r: TextRules, ops: seq<Op>, at: SessionKey, batch: seq<Entry>, now: int, key: SessionKey)
    ensures EntriesAt(Run(r, EMPTY, ops + [AppendOp(at, batch, now)]), key)
      == EntriesAt(Run(r, EMPTY, ops), key) + if at == key then batch else []
  {
    assert (ops + [AppendOp(at, batch, now)])[..|ops|] == ops;
  }

  lemma {:induction false} MemoryKeeps(r: TextRules, es: seq<Event>, clock: nat -> int, key: SessionKey)
    ensures EntriesAt(Run(r, EMPTY, AppendOps(es, clock)), key) == Stored(es, key)
  {
    if es != [] {
      var e, front := es[|es| - 1], AppendOps(es[..|es| - 1], clock);
      MemoryKeeps(r, es[..|es| - 1], clock, key);
      if e.Attempt? && !e.t.fails {
        RunOne(r, front, e.key, e.batch, clock(|es|), key);
      } else {
        assert AppendOps(es, clock) == front;
      }
    }
  }

  predicate JsonlPath(c: Config, path: string) {
    c.parts(path).Some? ==>
      var parts := c.parts(path).value; NoSlash(parts) && parts != [] && HasSuffix(parts[|parts| - 1], JSONL)
  }

  /** Every path is a ".jsonl" file, and different paths are different files. */
  predicate JsonlFiles(c: Config, frames: seq<Frame>) {
    && (forall f :: f in frames ==> JsonlPath(c, f.path))
    && forall f, g :: f in frames && g in frames && c.parts(f.path) == c.parts(g.path) ==> f.path == g.path
  }

  lemma OwnKeys(c: Config, frames: seq<Frame>, f: Frame, g: Frame)
    requires JsonlFiles(c, frames) && f in frames && g in frames
    requires KeyOf(c, f.path).Some? && KeyOf(c, f.path) == KeyOf(c, g.path)
    ensures f.path == g.path
  {
    assert JsonlPath(c, f.path) && JsonlPath(c, g.path);
    JsonlKeysDiffer(c.parts(f.path).value, c.parts(g.path).value);
  }

  // What a crossed flush does.

  /** Three different entries. */
  datatype Trio = Trio(one: Entry, two: Entry, other: Entry)

  predicate Apart(m: Trio) {
    m.one != m.two && m.one != m.other && m.two != m.other
  }

  function Marked(m: Trio): Entry -> bool {
    e => e != m.other
  }

  function Mark(m: Trio, b: nat, d: nat, x: nat): Entry {
    if x == b then m.one else if x == d then m.two else m.other
  }

  /** Frames for the paths: one entry at b, another at d, and a third everywhere else. */
  function Marks(m: Trio, paths: seq<string>, b: nat, d: nat): (r: seq<Frame>)
    ensures |r| == |paths| && forall x :: 0 <= x < |paths| ==> r[x] == Frame(paths[x], [Mark(m, b, d, x)])
  {
    seq(|paths|, x requires 0 <= x < |paths| => Frame(paths[x], [Mark(m, b, d, x)]))
  }

  /** What is left of an order of entries without the third. */
  function Bare(m: Trio, s: seq<Entry>): seq<Entry> {
    Keep(s, Marked(m))
  }

  lemma BareOne(m: Trio, e: Entry)
    ensures Bare(m, [e]) == (if e == m.other then [] else [e]) && Bare(m, []) == []
  {
    assert [e][..|[e]| - 1] == [];
    assert Keep([], Marked(m)) == [] && (Marked(m)(e) <==> e != m.other);
  }

  lemma BareEnd(m: Trio, s: seq<Entry>, es: seq<Entry>)
    ensures Bare(m, s + es) == Bare(m, s) + Bare(m, es)
  {
    KeepConcat(s, es, Marked(m));
  }

  /** What the x-th of the marked frames adds, if it is for the key or path asked about. */
  function Added(m: Trio, b: nat, d: nat, x: nat, mine: bool): seq<Entry> {
    if mine then OneOf(m.one, m.two, b, d, x) else []
  }

  lemma BareMark(m: Trio, paths: seq<string>, b: nat, d: nat, x: nat, mine: bool)
    requires Apart(m) && b < d && x < |paths|
    ensures Bare(m, if mine then Marks(m, paths, b, d)[x].entries else []) == Added(m, b, d, x, mine)
  {
    BareOne(m, Mark(m, b, d, x));
  }

  lemma MarksFront(m: Trio, paths: seq<string>, b: nat, d: nat, x: nat)
    requires x < |paths|
    ensures Marks(m, paths, b, d)[..x + 1] == Marks(m, paths, b, d)[..x] + [Marks(m, paths, b, d)[x]]
  {
  }

  /** Of p at b and q at d, what is before x. */
  function Upto(p: Entry, q: Entry, b: nat, d: nat, x: nat): seq<Entry> {
    if x <= b then [] else if x <= d then [p] else [p, q]
  }

  lemma UptoStep(p: Entry, q: Entry, b: nat, d: nat, x: nat)
    requires b < d
    ensures Upto(p, q, b, d, x + 1) == Upto(p, q, b, d, x) + OneOf(p, q, b, d, x)
  {
  }

  function OneOf(p: Entry, q: Entry, b: nat, d: nat, x: nat): seq<Entry> {
    if x == b then [p] else if x == d then [q] else []
  }

  lemma BareArrivedStep(c: Config, m: Trio, paths: seq<string>, b: nat, d: nat, key: SessionKey, x: nat)
    requires Apart(m) && b < d && x < |paths|
    ensures Bare(m, Arrived(c, Marks(m, paths, b, d)[..x + 1], key))
         == Bare(m, Arrived(c, Marks(m, paths, b, d)[..x], key)) + Added(m, b, d, x, KeyOf(c, paths[x]) == Some(key))
  {
    var items, f := Marks(m, paths, b, d), Marks(m, paths, b, d)[x];
    MarksFront(m, paths, b, d, x);
    ArrivedEnd(c, items[..x], f, key);
    BareEnd(m, Arrived(c, items[..x], key), if KeyOf(c, f.path) == Some(key) then f.entries else []);
    BareMark(m, paths, b, d, x, KeyOf(c, paths[x]) == Some(key));
  }

  lemma {:induction false} BareArrived(c: Config, m: Trio, paths: seq<string>, b: nat, d: nat, key: SessionKey, x: nat)
    requires Apart(m) && b < d < |paths| && KeyOf(c, paths[b]) == Some(key) && KeyOf(c, paths[d]) == Some(key)
      && x <= |paths|
    ensures Bare(m, Arrived(c, Marks(m, paths, b, d)[..x], key)) == Upto(m.one, m.two, b, d, x)
    decreases x
  {
    if x == 0 {
      BareOne(m, m.one);
    } else {
      BareArrived(c, m, paths, b, d, key, x - 1);
      BareArrivedStep(c, m, paths, b, d, key, x - 1);
      assert Added(m, b, d, x - 1, KeyOf(c, paths[x - 1]) == Some(key)) == OneOf(m.one, m.two, b, d, x - 1);
      UptoStep(m.one, m.two, b, d, x - 1);
    }
  }

  lemma BareEntriesStep(m: Trio, paths: seq<string>, b: nat, d: nat, p: string, x: nat)
    requires Apart(m) && b < d && x < |paths|
    ensures Bare(m, EntriesFor(Marks(m, paths, b, d)[..x + 1], p))
         == Bare(m, EntriesFor(Marks(m, paths, b, d)[..x], p)) + Added(m, b, d, x, paths[x] == p)
  {
    var items, f := Marks(m, paths, b, d), Marks(m, paths, b, d)[x];
    MarksFront(m, paths, b, d, x);
    EntriesForEnd(items[..x], f, p);
    BareEnd(m, EntriesFor(items[..x], p), if f.path == p then f.entries else []);
    BareMark(m, paths, b, d, x, paths[x] == p);
  }

  lemma {:induction false} BareEntries(m: Trio, paths: seq<string>, b: nat, d: nat, p: string, x: nat)
    requires Apart(m) && b < d < |paths| && paths[b] != paths[d] && x <= |paths|
    ensures Bare(m, EntriesFor(Marks(m, paths, b, d)[..x], p)) == MarksOf(m, paths, b, d, p, x)
    decreases x
  {
    if x == 0 {
      BareOne(m, m.one);
    } else {
      BareEntries(m, paths, b, d, p, x - 1);
      BareEntriesStep(m, paths, b, d, p, x - 1);
      MarksOfStep(m, paths, b, d, p, x - 1);
    }
  }

  /** Of the first x frames' marks, those of the path p. */
  function MarksOf(m: Trio, paths: seq<string>, b: nat, d: nat, p: string, x: nat): seq<Entry>
    requires b < |paths| && d < |paths|
  {
    if p == paths[b] && x > b then [m.one] else if p == paths[d] && x > d then [m.two] else []
  }

  lemma MarksOfStep(m: Trio, paths: seq<string>, b: nat, d: nat, p: string, x: nat)
    requires b < d < |paths| && paths[b] != paths[d] && x < |paths|
    ensures MarksOf(m, paths, b, d, p, x + 1) == MarksOf(m, paths, b, d, p, x) + Added(m, b, d, x, paths[x] == p)
  {
  }

  /** What the group of a path keeps of the three. */
  function GroupOf(c: Config, m: Trio, paths: seq<string>, b: nat, d: nat, key: SessionKey, p: string): seq<Entry>
    requires b < |paths| && d < |paths|
  {
    if KeyOf(c, p) != Some(key) then [] else if p == paths[d] then [m.two] else if p == paths[b] then [m.one] else []
  }

  lemma BareGroupedStep(c: Config, m: Trio, paths: seq<string>, b: nat, d: nat, key: SessionKey, ps: seq<string>,
                        y: nat)
    requires Apart(m) && b < d < |paths| && paths[b] != paths[d] && y < |ps|
    ensures Bare(m, KeyEntries(c, Marks(m, paths, b, d), ps[..y + 1], key))
         == Bare(m, KeyEntries(c, Marks(m, paths, b, d), ps[..y], key))
            + GroupOf(c, m, paths, b, d, key, ps[y])
  {
    var items, p := Marks(m, paths, b, d), ps[y];
    TakeOne(ps, y);
    KeyEntriesEnd(c, items, ps[..y], p, key);
    BareEnd(m, KeyEntries(c, items, ps[..y], key), if KeyOf(c, p) == Some(key) then EntriesFor(items, p) else []);
    BareEntries(m, paths, b, d, p, |paths|);
    assert items[..|paths|] == items;
    BareOne(m, m.one);
  }

  /** With the path of d grouped before the path of b, the flush turns the two around. */
  lemma {:induction false} BareGrouped(c: Config, m: Trio, paths: seq<string>, b: nat, d: nat, key: SessionKey,
                                       ps: seq<string>,
                                       a: nat, e: nat, y: nat)
    requires Apart(m) && b < d < |paths| && paths[b] != paths[d] && KeyOf(c, paths[b]) == Some(key)
      && KeyOf(c, paths[d]) == Some(key)
    requires Distinct(ps) && a < e < |ps| && ps[a] == paths[d] && ps[e] == paths[b] && y <= |ps|
    ensures Bare(m, KeyEntries(c, Marks(m, paths, b, d), ps[..y], key)) == Upto(m.two, m.one, a, e, y)
    decreases y
  {
    if y == 0 {
      BareOne(m, m.one);
    } else {
      BareGrouped(c, m, paths, b, d, key, ps, a, e, y - 1);
      BareGroupedStep(c, m, paths, b, d, key, ps, y - 1);
      OnlyAt(ps, a, y - 1);
      OnlyAt(ps, e, y - 1);
      assert GroupOf(c, m, paths, b, d, key, ps[y - 1]) == OneOf(m.two, m.one, a, e, y - 1);
      UptoStep(m.two, m.one, a, e, y - 1);
    }
  }

  lemma OnlyAt(ps: seq<string>, a: nat, y: nat)
    requires Distinct(ps) && a < |ps| && y < |ps|
    ensures ps[y] == ps[a] <==> y == a
  {
    if y < a {
      DistinctAt(ps, y, a);
    } else if a < y {
      DistinctAt(ps, a, y);
    }
  }

  lemma {:induction false} PathsPrefix(items: seq<Frame>, x: nat)
    requires x <= |items|
    ensures Paths(items[..x]) <= Paths(items)
    decreases |items|
  {
    if x == |items| {
      assert items[..x] == items;
    } else {
      var front := items[..|items| - 1];
      assert front[..x] == items[..x];
      PathsPrefix(front, x);
    }
  }

  /** A path seen before another is first seen is before it in the order of the groups. */
  lemma {:induction false} GroupedBefore(items: seq<Frame>, u: nat, v: nat) returns (a: nat, e: nat)
    requires u < |items| && v < |items| && items[u].path != items[v].path
    requires forall x :: 0 <= x < u ==> items[x].path != items[v].path
    ensures a < e < |Paths(items)| && Paths(items)[a] == items[u].path && Paths(items)[e] == items[v].path
  {
    var first := Paths(items[..u + 1]);
    PathsOf(items[..u + 1]);
    PathsOf(items);
    PathsPrefix(items, u + 1);
    assert items[..u + 1][u] == items[u];
    assert HasPath(items[..u + 1], items[u].path);
    assert !HasPath(items[..u + 1], items[v].path);
    assert HasPath(items, items[v].path);
    a :| 0 <= a < |first| && first[a] == items[u].path;
    e :| 0 <= e < |Paths(items)| && Paths(items)[e] == items[v].path;
    assert items[v].path !in first;
    assert forall x :: 0 <= x < |first| ==> Paths(items)[x] == first[x] && first[x] in first;
  }

  lemma FirstOf(paths: seq<string>, i: nat) returns (u: nat)
    requires i < |paths|
    ensures u <= i && paths[u] == paths[i] && forall x :: 0 <= x < u ==> paths[x] != paths[i]
  {
    u := 0;
    while paths[u] != paths[i]
      invariant u <= i && forall x :: 0 <= x < u ==> paths[x] != paths[i]
      decreases i - u
    {
      u := u + 1;
    }
  }

  /** Of a crossing, two frames of the two paths, the later of the path that is seen first of all. */
  lemma Turned(c: Config, paths: seq<string>) returns (u: nat, b: nat, d: nat)
    requires Crossed(c, paths)
    ensures u < b < d < |paths| && paths[u] == paths[d] && paths[b] != paths[d]
    ensures KeyOf(c, paths[b]).Some? && KeyOf(c, paths[b]) == KeyOf(c, paths[d])
    ensures forall x :: 0 <= x < u ==> paths[x] != paths[b]
  {
    var i, j, k :| 0 <= i < j < k < |paths| && Crosses(c, paths, i, j, k);
    var p := FirstOf(paths, i);
    var q := FirstOf(paths, j);
    if p < q {
      u, b, d := p, j, k;
    } else {
      u, b, d := q, i, j;
    }
  }

  predicate NoneEmpty(items: seq<Frame>) {
    forall f :: f in items ==> f.entries != []
  }

  ghost predicate KeepsOrder(c: Config, n: nat, items: seq<Frame>) {
    forall key :: Stored(Flushed(c, n, items), key) == Arrived(c, items, key)
  }

  lemma CrossedLoses(c: Config, n: nat, paths: seq<string>) returns (items: seq<Frame>)
    requires NeverFails(c) && Crossed(c, paths)
    ensures PathList(items) == paths && NoneEmpty(items) && !KeepsOrder(c, n, items)
  {
    var m := SomeTrio();
    var u, b, d := Turned(c, paths);
    items := Marks(m, paths, b, d);
    var key := KeyOf(c, paths[b]).value;
    GroupsStored(c, n, items, Paths(items), key);
    MarksTurn(c, m, paths, u, b, d, key);
  }

  lemma SomeTrio() returns (m: Trio)
    ensures Apart(m)
  {
    m := Trio(map[Field.Uuid := Num(1)], map[Field.Uuid := Num(2)], map[Field.Uuid := Num(3)]);
    assert m.one[Field.Uuid] != m.two[Field.Uuid] && m.two[Field.Uuid] != m.other[Field.Uuid]
      && m.one[Field.Uuid] != m.other[Field.Uuid];
  }

  lemma MarksTurn(c: Config, m: Trio, paths: seq<string>, u: nat, b: nat, d: nat, key: SessionKey)
    requires Apart(m) && u < b < d < |paths| && paths[u] == paths[d] && paths[b] != paths[d]
    requires KeyOf(c, paths[b]) == Some(key) && KeyOf(c, paths[d]) == Some(key)
    requires forall x :: 0 <= x < u ==> paths[x] != paths[b]
    ensures var items := Marks(m, paths, b, d); KeyEntries(c, items, Paths(items), key) != Arrived(c, items, key)
  {
    var items := Marks(m, paths, b, d);
    var ps := Paths(items);
    var a, e := GroupedBefore(items, u, b);
    PathsOf(items);
    BareGrouped(c, m, paths, b, d, key, ps, a, e, |ps|);
    BareArrived(c, m, paths, b, d, key, |paths|);
    assert ps[..|ps|] == ps && items[..|paths|] == items;
    assert [m.two, m.one][0] != [m.one, m.two][0];
  }

  /** A flush keeps the order of arrival under every key, whatever the frames of the given paths hold, if and only
      if no frame of another path with the same key comes between two frames of one path. */
  lemma {:induction false} FlushKeepsOrderIff(c: Config, n: nat, paths: seq<string>)
    requires NeverFails(c)
    ensures !Crossed(c, paths) <==>
      forall items {:trigger KeepsOrder(c, n, items)} :: PathList(items) == paths && NoneEmpty(items) ==>
        KeepsOrder(c, n, items)
  {
    if Crossed(c, paths) {
      var items := CrossedLoses(c, n, paths);
    } else {
      forall items | PathList(items) == paths ensures KeepsOrder(c, n, items) {
        forall key ensures Stored(Flushed(c, n, items), key) == Arrived(c, items, key) {
          FlushStores(c, n, items, key);
        }
      }
    }
  }

  // Whole runs.

  /** What a step adds to what is pending. */
  function Taken(op: MirrorOp): seq<Frame> {
    if op.Arrive? && op.f.entries != [] then [op.f] else []
  }

  /** Nothing pending is crossed at any time of the run, so no flush is. */
  ghost predicate Calm(c: Config, ops: seq<MirrorOp>) {
    ops == []
      || (Calm(c, ops[..|ops| - 1])
         && !Crossed(c, PathList(RunMirror(c, ops[..|ops| - 1]).pending + Taken(ops[|ops| - 1]))))
  }

  /** What is stored and what is pending make up what has arrived. */
  predicate Conserved(c: Config, r: MirrorRun, frames: seq<Frame>, key: SessionKey) {
    Stored(r.out, key) + Arrived(c, r.pending, key) == Arrived(c, frames, key)
  }

  lemma FlushConserves(c: Config, r: MirrorRun, frames: seq<Frame>, key: SessionKey)
    requires NeverFails(c) && !Crossed(c, PathList(r.pending)) && Conserved(c, r, frames, key)
    ensures Conserved(c,
      MirrorRun([], r.tried + AttemptCount(Flushed(c, r.tried, r.pending)), r.out + Flushed(c, r.tried, r.pending)),
      frames, key)
  {
    FlushStores(c, r.tried, r.pending, key);
    StoredConcat(r.out, Flushed(c, r.tried, r.pending), key);
  }

  /** Holding a frame back conserves. */
  lemma PendConserves(c: Config, r: MirrorRun, f: Frame, frames: seq<Frame>, key: SessionKey)
    requires Conserved(c, r, frames, key)
    ensures Conserved(c, r.(pending := r.pending + [f]), frames + [f], key)
  {
    ArrivedEnd(c, frames, f, key);
    ArrivedEnd(c, r.pending, f, key);
    Associative(Stored(r.out, key), Arrived(c, r.pending, key),
                if KeyOf(c, f.path) == Some(key) then f.entries else []);
  }

  lemma StepConserves(c: Config, r: MirrorRun, op: MirrorOp, frames: seq<Frame>, key: SessionKey)
    requires NeverFails(c) && !Crossed(c, PathList(r.pending + Taken(op))) && Conserved(c, r, frames, key)
    ensures Conserved(c, StepMirror(c, r, op), frames + FrameOf(op), key)
  {
    assert r.out + [] == r.out;
    if op.FlushNow? {
      assert frames + FrameOf(op) == frames && r.pending + Taken(op) == r.pending;
      FlushConserves(c, r, frames, key);
    } else if op.f.entries == [] {
      ArrivedEnd(c, frames, op.f, key);
    } else {
      PendConserves(c, r, op.f, frames, key);
      FlushConserves(c, r.(pending := r.pending + [op.f]), frames + [op.f], key);
    }
  }

  lemma {:induction false} RunConserves(c: Config, ops: seq<MirrorOp>, key: SessionKey)
    requires NeverFails(c) && Calm(c, ops)
    ensures Conserved(c, RunMirror(c, ops), Frames(ops), key)
  {
    if ops != [] {
      var front := ops[..|ops| - 1];
      RunConserves(c, front, key);
      StepConserves(c, RunMirror(c, front), ops[|ops| - 1], Frames(front), key);
    }
  }

  /** Over every sequence of frames and flushes that nothing crosses, with a last flush, each key ends with exactly
      the entries that arrived for it, in order: nothing is lost, doubled or reordered, batched or eager. */
  lemma {:induction false} MirrorConserves(c: Config, ops: seq<MirrorOp>, key: SessionKey)
    requires NeverFails(c) && Calm(c, ops)
    ensures Stored(RunMirror(c, ops + [FlushNow]).out, key) == Arrived(c, Frames(ops), key)
  {
    var all := ops + [FlushNow];
    assert all[..|ops|] == ops;
    StaysCalm(c, ops);
    RunConserves(c, all, key);
    assert Frames(all) == Frames(ops);
  }

  lemma {:induction false} PendingCalm(c: Config, ops: seq<MirrorOp>)
    requires Calm(c, ops)
    ensures !Crossed(c, PathList(RunMirror(c, ops).pending))
  {
    if ops != [] {
      var r, op := RunMirror(c, ops[..|ops| - 1]), ops[|ops| - 1];
      assert r.pending + Taken(op) == if op.Arrive? && op.f.entries != [] then r.pending + [op.f] else r.pending;
    }
  }

  lemma StaysCalm(c: Config, ops: seq<MirrorOp>)
    requires Calm(c, ops)
    ensures Calm(c, ops + [FlushNow])
  {
    var all := ops + [FlushNow];
    assert all[..|ops|] == ops;
    PendingCalm(c, ops);
    assert RunMirror(c, ops).pending + Taken(FlushNow) == RunMirror(c, ops).pending;
  }

  /** In eager mode nothing is ever crossed, whatever the paths. */
  lemma {:induction false} EagerIsCalm(c: Config, ops: seq<MirrorOp>)
    requires c.eager
    ensures Calm(c, ops)
  {
    if ops != [] {
      EagerIsCalm(c, ops[..|ops| - 1]);
      PendingBounded(c, ops[..|ops| - 1]);
    }
  }

  /** So the two modes agree, key by key, on every run that is calm when batched. */
  lemma {:induction false} BatchedIsEager(c: Config, ops: seq<MirrorOp>, key: SessionKey)
    requires NeverFails(c) && Calm(c.(eager := false), ops)
    ensures Stored(RunMirror(c.(eager := false), ops + [FlushNow]).out, key)
      == Stored(RunMirror(c.(eager := true), ops + [FlushNow]).out, key)
  {
    var batched, eager := c.(eager := false), c.(eager := true);
    assert batched.world == c.world && eager.world == c.world;
    EagerIsCalm(eager, ops);
    MirrorConserves(batched, ops, key);
    MirrorConserves(eager, ops, key);
    SameArrivals(batched, eager, Frames(ops), key);
  }

  /** A session mirrored to the in-memory store loads back as it was written, whichever the mode. */
  lemma {:induction false} MirroredLoadsBack(r: TextRules, c: Config, ops: seq<MirrorOp>, clock: nat -> int,
                                             key: SessionKey)
    requires NeverFails(c) && Calm(c, ops)
    ensures EntriesAt(Run(r, EMPTY, AppendOps(RunMirror(c, ops + [FlushNow]).out, clock)), key)
      == Arrived(c, Frames(ops), key)
  {
    MemoryKeeps(r, RunMirror(c, ops + [FlushNow]).out, clock, key);
    MirrorConserves(c, ops, key);
  }

  // Which runs are calm.

  /** The frames that hold something. */
  function Carried(ops: seq<MirrorOp>): seq<Frame> {
    if ops == [] then [] else Carried(ops[..|ops| - 1]) + Taken(ops[|ops| - 1])
  }

  lemma CrossedWithin(c: Config, all: seq<Frame>, x: nat)
    requires x <= |all| && !Crossed(c, PathList(all))
    ensures !Crossed(c, PathList(all[x..]))
  {
    var paths, more := PathList(all[x..]), PathList(all);
    if i, j, k :| 0 <= i < j < k < |paths| && Crosses(c, paths, i, j, k) {
      assert more[x + i] == paths[i] && more[x + j] == paths[j] && more[x + k] == paths[k];
      assert Crosses(c, more, x + i, x + j, x + k);
    }
  }

  /** What is pending is the end of what was carried. */
  lemma {:induction false} PendingIsEnd(c: Config, ops: seq<MirrorOp>) returns (x: nat)
    ensures x <= |Carried(ops)| && RunMirror(c, ops).pending == Carried(ops)[x..]
  {
    x := 0;
    if ops != [] {
      var op := ops[|ops| - 1];
      x := PendingIsEnd(c, ops[..|ops| - 1]);
      if RunMirror(c, ops).pending == [] {
        x := |Carried(ops)|;
      }
    }
  }

  lemma CarriedFront(c: Config, ops: seq<MirrorOp>)
    requires ops != [] && !Crossed(c, PathList(Carried(ops)))
    ensures !Crossed(c, PathList(Carried(ops[..|ops| - 1])))
  {
    var front, op := Carried(ops[..|ops| - 1]), ops[|ops| - 1];
    if Taken(op) != [] {
      NotCrossedFront(c, front, op.f);
    } else {
      assert front + Taken(op) == front;
    }
  }

  /** A run is calm if no frame of another path with the same key comes between two of one path in all of it. */
  lemma {:induction false} ApartIsCalm(c: Config, ops: seq<MirrorOp>)
    requires !Crossed(c, PathList(Carried(ops)))
    ensures Calm(c, ops)
  {
    if ops != [] {
      var front, op := ops[..|ops| - 1], ops[|ops| - 1];
      CarriedFront(c, ops);
      ApartIsCalm(c, front);
      var x := PendingIsEnd(c, front);
      CrossedWithin(c, Carried(ops), x);
      assert Carried(ops)[x..] == RunMirror(c, front).pending + Taken(op);
    }
  }

  /** Different ".jsonl" files are never crossed. */
  lemma JsonlIsApart(c: Config, frames: seq<Frame>)
    requires JsonlFiles(c, frames)
    ensures !Crossed(c, PathList(frames))
  {
    var paths := PathList(frames);
    forall i, j, k | 0 <= i < j < k < |paths| ensures !Crosses(c, paths, i, j, k) {
      if KeyOf(c, paths[i]).Some? && KeyOf(c, paths[i]) == KeyOf(c, paths[j]) {
        OwnKeys(c, frames, frames[i], frames[j]);
      }
    }
  }

  // Where the modes differ.

  lemma Three<T>(a: T, b: T, c: T)
    ensures [a, b, c] == [a, b] + [c] && [a, b] == [a] + [b] && [a] == [] + [a]
  {
  }

  function Mine(c: Config, f: Frame, key: SessionKey): seq<Entry> {
    if KeyOf(c, f.path) == Some(key) then f.entries else []
  }

  lemma {:induction false} ThreeFrames(c: Config, f: Frame, g: Frame, h: Frame, key: SessionKey)
    ensures Arrived(c, [f, g, h], key) == Mine(c, f, key) + Mine(c, g, key) + Mine(c, h, key)
  {
    Three(f, g, h);
    ArrivedEnd(c, [f, g], h, key);
    ArrivedEnd(c, [f], g, key);
    ArrivedEnd(c, [], f, key);
  }

  lemma {:induction false} ThreePaths(f: Frame, g: Frame, h: Frame)
    requires f.path != g.path && h.path == f.path
    ensures Paths([f, g, h]) == [f.path, g.path]
  {
    Three(f, g, h);
    PathsEnd([], f);
    PathsEnd([f], g);
    PathsEnd([f, g], h);
  }

  lemma {:induction false} ThreeEntriesFor(f: Frame, g: Frame, h: Frame, p: string)
    ensures EntriesFor([f, g, h], p) ==
      (if f.path == p then f.entries else [])
        + (if g.path == p then g.entries else [])
        + if h.path == p then h.entries else []
  {
    Three(f, g, h);
    EntriesForEnd([], f, p);
    EntriesForEnd([f], g, p);
    EntriesForEnd([f, g], h, p);
  }

  lemma {:induction false} CrossedGroups(c: Config, f: Frame, g: Frame, h: Frame, key: SessionKey)
    requires f.path != g.path && h.path == f.path && KeyOf(c, f.path) == Some(key) && KeyOf(c, g.path) == Some(key)
    ensures KeyEntries(c, [f, g, h], [f.path, g.path], key) == f.entries + h.entries + g.entries
  {
    TwoGroups(f, g, h);
    TwoKeyEntries(c, [f, g, h], f.path, g.path, key);
  }

  lemma TwoGroups(f: Frame, g: Frame, h: Frame)
    requires f.path != g.path && h.path == f.path
    ensures EntriesFor([f, g, h], f.path) == f.entries + h.entries && EntriesFor([f, g, h], g.path) == g.entries
  {
    ThreeEntriesFor(f, g, h, f.path);
    ThreeEntriesFor(f, g, h, g.path);
    assert f.entries + [] + h.entries == f.entries + h.entries && [] + g.entries + [] == g.entries;
  }

  lemma TwoKeyEntries(c: Config, items: seq<Frame>, p: string, q: string, key: SessionKey)
    requires KeyOf(c, p) == Some(key) && KeyOf(c, q) == Some(key)
    ensures KeyEntries(c, items, [p, q], key) == EntriesFor(items, p) + EntriesFor(items, q)
  {
    Three(p, q, q);
    KeyEntriesEnd(c, items, [p], q, key);
    KeyEntriesEnd(c, items, [], p, key);
    assert [] + EntriesFor(items, p) == EntriesFor(items, p);
  }

  lemma CountEnd(c: Config, items: seq<Frame>, f: Frame)
    ensures EntryCount(items + [f]) == EntryCount(items) + |f.entries|
    ensures ByteCount(c, items + [f]) == ByteCount(c, items) + c.size(f.entries)
  {
    assert (items + [f])[..|items|] == items;
  }

  lemma {:induction false} StaysPending(c: Config, ops: seq<MirrorOp>, f: Frame)
    requires !c.eager && f.entries != []
    requires var p := RunMirror(c, ops).pending + [f]; EntryCount(p) <= MAX_ENTRIES && ByteCount(c, p) <= MAX_BYTES
    ensures var r := RunMirror(c, ops); RunMirror(c, ops + [Arrive(f)]) == r.(pending := r.pending + [f])
  {
    assert (ops + [Arrive(f)])[..|ops|] == ops;
    assert RunMirror(c, ops).out + [] == RunMirror(c, ops).out;
  }

  lemma {:induction false} ThreePending(c: Config, f: Frame, g: Frame, h: Frame)
    requires !c.eager && |f.entries| == 1 && |g.entries| == 1 && |h.entries| == 1
    requires c.size(f.entries) + c.size(g.entries) + c.size(h.entries) <= MAX_BYTES
    ensures RunMirror(c, [Arrive(f), Arrive(g), Arrive(h)]) == MirrorRun([f, g, h], 0, [])
  {
    ThreeCounts(c, f, g, h);
    Three(f, g, h);
    Three(Arrive(f), Arrive(g), Arrive(h));
    StaysPending(c, [], f);
    StaysPending(c, [Arrive(f)], g);
    StaysPending(c, [Arrive(f), Arrive(g)], h);
  }

  lemma {:induction false} ThreeCounts(c: Config, f: Frame, g: Frame, h: Frame)
    ensures EntryCount([f]) == |f.entries| && ByteCount(c, [f]) == c.size(f.entries)
    ensures EntryCount([f, g]) == |f.entries| + |g.entries|
      && ByteCount(c, [f, g]) == c.size(f.entries) + c.size(g.entries)
    ensures EntryCount([f, g, h]) == |f.entries| + |g.entries| + |h.entries|
    ensures ByteCount(c, [f, g, h]) == c.size(f.entries) + c.size(g.entries) + c.size(h.entries)
  {
    Three(f, g, h);
    CountEnd(c, [], f);
    CountEnd(c, [f], g);
    CountEnd(c, [f, g], h);
  }

  function Arrivals(p: string, q: string, x: Entry, y: Entry, z: Entry): seq<MirrorOp> {
    [Arrive(Frame(p, [x])), Arrive(Frame(q, [y])), Arrive(Frame(p, [z]))]
  }

  lemma {:induction false} CrossedBatched(c: Config, p: string, q: string, key: SessionKey, x: Entry, y: Entry,
                                          z: Entry)
    requires NeverFails(c) && !c.eager && p != q && KeyOf(c, p) == Some(key) && KeyOf(c, q) == Some(key)
    requires c.size([x]) + c.size([y]) + c.size([z]) <= MAX_BYTES
    ensures Stored(RunMirror(c, Arrivals(p, q, x, y, z) + [FlushNow]).out, key) == [x, z, y]
  {
    var ops := Arrivals(p, q, x, y, z);
    var items := [Frame(p, [x]), Frame(q, [y]), Frame(p, [z])];
    ThreePending(c, items[0], items[1], items[2]);
    ThreePaths(items[0], items[1], items[2]);
    CrossedGroups(c, items[0], items[1], items[2], key);
    GroupsStored(c, 0, items, [p, q], key);
    FlushAll(c, ops, items);
    Three(x, z, y);
  }

  lemma {:induction false} FlushAll(c: Config, ops: seq<MirrorOp>, items: seq<Frame>)
    requires RunMirror(c, ops) == MirrorRun(items, 0, [])
    ensures RunMirror(c, ops + [FlushNow]).out == Flushed(c, 0, items)
  {
    assert (ops + [FlushNow])[..|ops|] == ops;
    assert [] + Flushed(c, 0, items) == Flushed(c, 0, items);
  }

  lemma {:induction false} CrossedEager(c: Config, p: string, q: string, key: SessionKey, x: Entry, y: Entry, z: Entry)
    requires NeverFails(c) && c.eager && KeyOf(c, p) == Some(key) && KeyOf(c, q) == Some(key)
    ensures Stored(RunMirror(c, Arrivals(p, q, x, y, z) + [FlushNow]).out, key) == [x, y, z]
  {
    var ops := Arrivals(p, q, x, y, z);
    EagerIsCalm(c, ops);
    MirrorConserves(c, ops, key);
    ArrivedThree(c, p, q, key, x, y, z);
  }

  lemma ArrivedThree(c: Config, p: string, q: string, key: SessionKey, x: Entry, y: Entry, z: Entry)
    requires KeyOf(c, p) == Some(key) && KeyOf(c, q) == Some(key)
    ensures Arrived(c, Frames(Arrivals(p, q, x, y, z)), key) == [x, y, z]
  {
    ThreeFrames(c, Frame(p, [x]), Frame(q, [y]), Frame(p, [z]), key);
    FramesOfThree(Frame(p, [x]), Frame(q, [y]), Frame(p, [z]));
    Three(x, y, z);
  }

  lemma FramesOfThree(f: Frame, g: Frame, h: Frame)
    ensures Frames([Arrive(f), Arrive(g), Arrive(h)]) == [f, g, h]
  {
    Three(f, g, h);
    FramesEnd([], f);
    FramesEnd([Arrive(f)], g);
    FramesEnd([Arrive(f), Arrive(g)], h);
    Three(Arrive(f), Arrive(g), Arrive(h));
  }

  lemma FramesEnd(ops: seq<MirrorOp>, f: Frame)
    ensures Frames(ops + [Arrive(f)]) == Frames(ops) + [f]
  {
    assert (ops + [Arrive(f)])[..|ops|] == ops;
  }

  /** Where two paths share a key the modes differ: of three frames in turn for one path, the other and the first
      again, the batched mirror stores the third before the second. */
  lemma {:induction false} CrossedModesDiffer(c: Config, p: string, q: string, key: SessionKey, x: Entry, y: Entry,
                                              z: Entry)
    requires NeverFails(c) && p != q && KeyOf(c, p) == Some(key) && KeyOf(c, q) == Some(key)
    requires c.size([x]) + c.size([y]) + c.size([z]) <= MAX_BYTES
    ensures var ops := Arrivals(p, q, x, y, z) + [FlushNow];
      && Stored(RunMirror(c.(eager := false), ops).out, key) == [x, z, y]
      && Stored(RunMirror(c.(eager := true), ops).out, key) == [x, y, z]
  {
    var batched, eager := c.(eager := false), c.(eager := true);
    assert batched.world == c.world && eager.world == c.world && batched.parts == c.parts && eager.parts == c.parts;
    CrossedBatched(batched, p, q, key, x, y, z);
    CrossedEager(eager, p, q, key, x, y, z);
  }

  /** Such paths: a sub-transcript with the suffix and without. */
  lemma {:induction false} SharedKeysExist() returns (c: Config, p: string, q: string, key: SessionKey)
    ensures NeverFails(c) && p != q && KeyOf(c, p) == Some(key) && KeyOf(c, q) == Some(key)
    ensures forall es :: c.size(es) == 0
  {
    p, q := "p", "q";
    var a, b := ["project", "session", "agents", "a"], ["project", "session", "agents", "a" + JSONL];
    c := Config(false, s => if s == "p" then Some(a) else Some(b), es => 0, n => Try(false, false, false, []));
    assert "p"[0] != "q"[0];
    assert a[0] != ".." by {
      assert "project"[0] != ".."[0];
    }
    assert !HasSuffix("a", JSONL) && HasSuffix("a" + JSONL, JSONL);
    assert ("a" + JSONL)[..1] == "a";
    assert TrimLast(a[2..]) == ["agents", "a"] && TrimLast(b[2..]) == ["agents", "a"];
    key := KeyForParts(a).value;
  }
}
