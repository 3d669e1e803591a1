/** The read loop's order of messages and mirrored entries: domains/agent/session_manager.go. */
module ReadLoop {
  import opened Json
  import opened Seqs
  import opened MemoryStore
  import opened Mirror
  import opened MirrorOrder
  import opened MirrorRetry

  /** A message on msgCh: a converted line, or a report of a failed append. */
  datatype Msg = Converted(tag: int, isResult: bool) | MirrorError(of: Option<SessionKey>)

  /** A line as the loop tells them apart: `Control` is a control response, request or cancel, `Skipped` one
      that converts to no message. */
  datatype Line =
    | TranscriptMirror(f: Frame)
    | Control
    | End
    | ErrorLine
    | Message(tag: int, isResult: bool)
    | Skipped
    | Unparsable

  /** What the loop does outside itself, in order. */
  datatype Out = Mirrored(e: Event) | Put(m: Msg) | ErrSent(isNil: bool) | ChannelClosed

  datatype Stop = Running | AtContext | AtEnd | AtError | AtUnparsable | AtReceive

  /** Whether there is a store, whether msgCh is full at the n-th event, whether the context wins over putting
      the k-th line's message, and whether Receive ends with io.EOF or the context's end. */
  datatype Setting = Setting(store: bool, c: Config, full: nat -> bool, ctxWins: nat -> bool, cleanEnd: bool)

  datatype Loop = Loop(pending: seq<Frame>, tried: nat, out: seq<Out>, stop: Stop, seen: nat)

  const START := Loop([], 0, [], Running, 0)

  /** One mirror event; a report also puts a message unless the buffer is full. */
  function Note(s: Setting, out: seq<Out>, e: Event): seq<Out> {
    out + [Mirrored(e)] + if e.Report? && !s.full(|out|) then [Put(MirrorError(e.of))] else []
  }

  function Noted(s: Setting, out: seq<Out>, es: seq<Event>): seq<Out> {
    if es == [] then out else Note(s, Noted(s, out, es[..|es| - 1]), es[|es| - 1])
  }

  function FlushLoop(s: Setting, l: Loop): Loop {
    if !s.store then l
    else
      var es := Flushed(s.c, l.tried, l.pending);
      l.(pending := [], tried := l.tried + AttemptCount(es), out := Noted(s, l.out, es))
  }

  function HandleLine(s: Setting, l: Loop, line: Line): Loop {
    match line
    case TranscriptMirror(f) =>
      if !s.store then l
      else
        var (p, es) := Enqueued(s.c, l.tried, l.pending, f);
        l.(pending := p, tried := l.tried + AttemptCount(es), out := Noted(s, l.out, es))
    case Control => l
    case End => l.(out := l.out + [ErrSent(true)], stop := AtEnd)
    case ErrorLine => l.(out := l.out + [ErrSent(false)], stop := AtError)
    case Unparsable => l.(out := l.out + [ErrSent(false)], stop := AtUnparsable)
    case Skipped => l
    case Message(tag, isResult) =>
      var f := if isResult then FlushLoop(s, l) else l;
      if s.ctxWins(l.seen) then f.(stop := AtContext) else f.(out := f.out + [Put(Converted(tag, isResult))])
  }

  function StepLine(s: Setting, l: Loop, line: Line): Loop {
    if l.stop != Running then l
    else
      var h := HandleLine(s, l, line);
      h.(seen := l.seen + 1)
  }

  function Lines(s: Setting, lines: seq<Line>): Loop {
    if lines == [] then START else StepLine(s, Lines(s, lines[..|lines| - 1]), lines[|lines| - 1])
  }

  /** After the last line Receive fails; then the mirror is flushed once more and msgCh is closed. */
  function Finished(s: Setting, l: Loop): Loop {
    var e := if l.stop == Running then l.(out := l.out + [ErrSent(s.cleanEnd)], stop := AtReceive) else l;
    var f := FlushLoop(s, e);
    f.(out := f.out + [ChannelClosed])
  }

  function Read(s: Setting, lines: seq<Line>): Loop {
    Finished(s, Lines(s, lines))
  }

  // The loop itself.

  method NoteAll(s: Setting, out: seq<Out>, es: seq<Event>) returns (r: seq<Out>)
    ensures r == Noted(s, out, es)
  {
    r := out;
    for i := 0 to |es|
      invariant r == Noted(s, out, es[..i])
    {
      assert es[..i + 1][..i] == es[..i];
      r := Note(s, r, es[i]);
    }
    assert es[..|es|] == es;
  }

  /** `mirror` is nil without a store. */
  method FlushMirror(s: Setting, mirror: Mirror.TranscriptMirror?, out: seq<Out>, ghost l: Loop) returns (r: seq<Out>)
    requires s.store == (mirror != null)
    requires mirror != null ==>
      mirror.Valid() && mirror.c == s.c && mirror.pending == l.pending && mirror.tried == l.tried
    requires out == l.out
    modifies if mirror == null then {} else {mirror}
    ensures r == FlushLoop(s, l).out
    ensures mirror != null ==>
      mirror.Valid() && mirror.pending == FlushLoop(s, l).pending && mirror.tried == FlushLoop(s, l).tried
  {
    r := out;
    if mirror != null {
      var es := mirror.Flush();
      r := NoteAll(s, out, es);
    }
  }

  ghost predicate Keeps(s: Setting, mirror: Mirror.TranscriptMirror?, l: Loop)
    reads if mirror == null then {} else {mirror}
  {
    && s.store == (mirror != null)
    && (mirror != null ==> mirror.Valid() && mirror.c == s.c && mirror.pending == l.pending && mirror.tried == l.tried)
  }

  method Handle(s: Setting, mirror: Mirror.TranscriptMirror?, line: Line, seen: nat, out: seq<Out>, ghost l: Loop)
    returns (r: seq<Out>, stop: Stop)
    requires Keeps(s, mirror, l) && out == l.out && seen == l.seen && l.stop == Running
    modifies if mirror == null then {} else {mirror}
    ensures r == HandleLine(s, l, line).out && stop == HandleLine(s, l, line).stop
    ensures Keeps(s, mirror, HandleLine(s, l, line))
  {
    r, stop := out, Running;
    match line {
      case TranscriptMirror(f) =>
        if mirror != null {
          var es := mirror.Enqueue(f);
          r := NoteAll(s, out, es);
        }
      case Control =>
      case End =>
        r, stop := out + [ErrSent(true)], AtEnd;
      case ErrorLine =>
        r, stop := out + [ErrSent(false)], AtError;
      case Unparsable =>
        r, stop := out + [ErrSent(false)], AtUnparsable;
      case Skipped =>
      case Message(tag, isResult) =>
        if isResult {
          r := FlushMirror(s, mirror, out, l);
        }
        if s.ctxWins(seen) {
          stop := AtContext;
        } else {
          r := r + [Put(Converted(tag, isResult))];
        }
    }
  }

  lemma LinesStep(s: Setting, lines: seq<Line>, k: nat)
    requires k < |lines|
    ensures Lines(s, lines[..k + 1]) == StepLine(s, Lines(s, lines[..k]), lines[k])
  {
    assert lines[..k + 1][..k] == lines[..k];
  }

  method ReadLoop(s: Setting, lines: seq<Line>) returns (out: seq<Out>)
    ensures out == Read(s, lines).out
  {
    var mirror: Mirror.TranscriptMirror? := null;
    if s.store {
      mirror := new Mirror.TranscriptMirror(s.c);
    }
    ghost var l := START;
    out := [];
    var stop := Running;
    var seen := 0;
    while seen < |lines| && stop == Running
      invariant seen <= |lines| && l.stop == stop && l.out == out && Keeps(s, mirror, l)
      invariant mirror != null ==> old(allocated(mirror)) == false
      invariant l == Lines(s, lines[..seen]) && (stop == Running ==> l.seen == seen)
    {
      LinesStep(s, lines, seen);
      out, stop := Handle(s, mirror, lines[seen], seen, out, l);
      l := StepLine(s, l, lines[seen]);
      seen := seen + 1;
    }
    if stop == Running {
      out, stop := out + [ErrSent(s.cleanEnd)], AtReceive;
    }
    StoppedLines(s, lines, seen);
    ghost var e := if l.stop == Running then l.(out := l.out + [ErrSent(s.cleanEnd)], stop := AtReceive) else l;
    out := FlushMirror(s, mirror, out, e);
    out := out + [ChannelClosed];
  }

  /** Once stopped the loop reads no further line. */
  lemma {:induction false} StoppedLines(s: Setting, lines: seq<Line>, k: nat)
    requires k <= |lines| && (k < |lines| ==> Lines(s, lines[..k]).stop != Running)
    ensures Lines(s, lines) == Lines(s, lines[..k])
  {
    if k == |lines| {
      assert lines[..k] == lines;
    } else {
      var front := lines[..|lines| - 1];
      assert front[..k] == lines[..k];
      StoppedLines(s, front, k);
    }
  }

  // What the order promises.

  /** The converted lines among what was put on msgCh. */
  function Shown(out: seq<Out>): seq<Msg> {
    if out == [] then [] else Shown(out[..|out| - 1]) + ShownBy(out[|out| - 1])
  }

  function ShownBy(o: Out): seq<Msg> {
    if o.Put? && o.m.Converted? then [o.m] else []
  }

  function MessageOf(line: Line): seq<Msg> {
    if line.Message? then [Converted(line.tag, line.isResult)] else []
  }

  function Messages(lines: seq<Line>): seq<Msg> {
    if lines == [] then [] else Messages(lines[..|lines| - 1]) + MessageOf(lines[|lines| - 1])
  }

  lemma ShownOne(out: seq<Out>, o: Out)
    ensures Shown(out + [o]) == Shown(out) + ShownBy(o)
  {
    assert (out + [o])[..|out|] == out;
  }

  lemma NoteShows(s: Setting, out: seq<Out>, e: Event)
    ensures Shown(Note(s, out, e)) == Shown(out) && out <= Note(s, out, e) && Mirrored(e) in Note(s, out, e)
  {
    var r := out + [Mirrored(e)];
    ShownOne(out, Mirrored(e));
    assert r[|out|] == Mirrored(e);
    if e.Report? && !s.full(|out|) {
      ShownOne(r, Put(MirrorError(e.of)));
      assert Note(s, out, e) == r + [Put(MirrorError(e.of))];
      assert Note(s, out, e)[|out|] == Mirrored(e);
    } else {
      assert Note(s, out, e) == r;
    }
  }

  lemma {:induction false} NotedShows(s: Setting, out: seq<Out>, es: seq<Event>)
    ensures Shown(Noted(s, out, es)) == Shown(out) && out <= Noted(s, out, es)
  {
    if es != [] {
      NotedShows(s, out, es[..|es| - 1]);
      NoteShows(s, Noted(s, out, es[..|es| - 1]), es[|es| - 1]);
    }
  }

  lemma {:induction false} NotedHas(s: Setting, out: seq<Out>, es: seq<Event>, d: Event)
    requires d in es
    ensures Mirrored(d) in Noted(s, out, es)
  {
    var front, e := es[..|es| - 1], es[|es| - 1];
    var before := Noted(s, out, front);
    NoteShows(s, before, e);
    if d != e {
      assert es == front + [e];
      NotedHas(s, out, front, d);
      Within(before, Note(s, before, e), Mirrored(d));
    }
  }

  lemma Within<T>(a: seq<T>, b: seq<T>, x: T)
    requires a <= b
    ensures x in a ==> x in b
  {
    if x in a {
      var i :| 0 <= i < |a| && a[i] == x;
      assert b[i] == x;
    }
  }

  /** The entry has been through its Append attempts, or its path has been reported as no transcript's. */
  ghost predicate Attempted(s: Setting, out: seq<Out>, f: Frame, e: Entry) {
    match KeyOf(s.c, f.path)
    case Some(key) => exists b, t :: Mirrored(Attempt(key, b, t)) in out && e in b
    case None => Mirrored(Report(None)) in out
  }

  ghost predicate AllAttempted(s: Setting, out: seq<Out>, frames: seq<Frame>) {
    forall f, e :: f in frames && e in f.entries ==> Attempted(s, out, f, e)
  }

  lemma AttemptedLater(s: Setting, out: seq<Out>, more: seq<Out>, f: Frame, e: Entry)
    requires out <= more && Attempted(s, out, f, e)
    ensures Attempted(s, more, f, e)
  {
    match KeyOf(s.c, f.path) {
      case Some(key) =>
        var b, t :| Mirrored(Attempt(key, b, t)) in out && e in b;
        Within(out, more, Mirrored(Attempt(key, b, t)));
      case None =>
        Within(out, more, Mirrored(Report(None)));
    }
  }

  lemma {:induction false} FrameEntries(items: seq<Frame>, f: Frame, e: Entry)
    requires f in items && e in f.entries
    ensures e in EntriesFor(items, f.path)
  {
    var front, last := items[..|items| - 1], items[|items| - 1];
    assert items == front + [last];
    if f in front {
      FrameEntries(front, f, e);
    }
  }

  /** A group starts by attempting everything of its path, or by reporting that it has no key. */
  lemma GroupAttempts(c: Config, n: nat, path: string, batch: seq<Entry>) returns (e: Event)
    ensures e in Group(c, n, path, batch)
    ensures match KeyOf(c, path)
      case Some(key) => e.Attempt? && e.key == key && e.batch == batch
      case None => e == Report(None)
  {
    var g := Group(c, n, path, batch);
    match KeyOf(c, path) {
      case Some(key) =>
        AttemptsBounded(c, n, key, batch);
        e := Attempt(key, batch, c.world(n));
        assert Tries(c, n, key, batch, 0)[0] == e;
        assert g[0] == e;
      case None =>
        e := Report(None);
    }
  }

  lemma {:induction false} GroupsAttempt(c: Config, n: nat, items: seq<Frame>, paths: seq<string>, path: string)
    returns (e: Event)
    requires path in paths
    ensures e in Groups(c, n, items, paths)
    ensures match KeyOf(c, path)
      case Some(key) => e.Attempt? && e.key == key && e.batch == EntriesFor(items, path)
      case None => e == Report(None)
  {
    var front, last := paths[..|paths| - 1], paths[|paths| - 1];
    assert paths == front + [last];
    var before := Groups(c, n, items, front);
    var m := n + AttemptCount(before);
    ThenIs(c, n, before, last, EntriesFor(items, last), m);
    if last == path {
      e := GroupAttempts(c, m, path, EntriesFor(items, path));
    } else {
      e := GroupsAttempt(c, n, items, front, path);
    }
  }

  lemma FlushAttempts(s: Setting, n: nat, items: seq<Frame>, out: seq<Out>)
    ensures AllAttempted(s, Noted(s, out, Flushed(s.c, n, items)), items)
  {
    var es := Flushed(s.c, n, items);
    PathsOf(items);
    forall f, e | f in items && e in f.entries ensures Attempted(s, Noted(s, out, es), f, e) {
      var d := GroupsAttempt(s.c, n, items, Paths(items), f.path);
      FrameEntries(items, f, e);
      NotedHas(s, out, es, d);
    }
  }

  /** The frames the mirror is given. */
  function FramesIn(s: Setting, lines: seq<Line>): seq<Frame> {
    if lines == [] then [] else FramesIn(s, lines[..|lines| - 1]) + FrameIn(s, lines[|lines| - 1])
  }

  function FrameIn(s: Setting, line: Line): seq<Frame> {
    if s.store && line.TranscriptMirror? then [line.f] else []
  }

  /** Every entry received is pending or has been through its attempts. */
  ghost predicate Covered(s: Setting, l: Loop, frames: seq<Frame>) {
    && (!s.store ==> frames == [] && l.pending == [])
    && forall f, e :: f in frames && e in f.entries ==> f in l.pending || Attempted(s, l.out, f, e)
  }

  lemma CoveredLater(s: Setting, l: Loop, more: Loop, frames: seq<Frame>)
    requires Covered(s, l, frames) && l.out <= more.out && l.pending == more.pending
    ensures Covered(s, more, frames)
  {
    forall f, e | f in frames && e in f.entries && f !in l.pending ensures Attempted(s, more.out, f, e) {
      AttemptedLater(s, l.out, more.out, f, e);
    }
  }

  /** A flush leaves nothing pending and shows nothing new. */
  lemma FlushCovers(s: Setting, l: Loop, frames: seq<Frame>)
    requires Covered(s, l, frames)
    ensures var f := FlushLoop(s, l);
      f.pending == [] && l.out <= f.out && Shown(f.out) == Shown(l.out) && AllAttempted(s, f.out, frames)
        && f.stop == l.stop && f.seen == l.seen
  {
    if s.store {
      var es := Flushed(s.c, l.tried, l.pending);
      var after := Noted(s, l.out, es);
      FlushAttempts(s, l.tried, l.pending, l.out);
      NotedShows(s, l.out, es);
      forall f, e | f in frames && e in f.entries ensures Attempted(s, after, f, e) {
        if f !in l.pending {
          AttemptedLater(s, l.out, after, f, e);
        }
      }
    }
  }

  /** The lines whose messages were put: all that were read, but the one the context cut short. */
  function PutLines(l: Loop): nat {
    if l.stop == AtContext && l.seen > 0 then l.seen - 1 else l.seen
  }

  // The mirror's part of the loop.

  /** What the mirror did, among everything. */
  function Events(out: seq<Out>): seq<Event> {
    if out == [] then [] else Events(out[..|out| - 1]) + if out[|out| - 1].Mirrored? then [out[|out| - 1].e] else []
  }

  predicate IsResult(line: Line) {
    line.Message? && line.isResult
  }

  /** What a line asks of the mirror: a result asks for a flush, also when the context then wins. */
  function OpOf(s: Setting, line: Line): seq<MirrorOp> {
    if !s.store then []
    else if line.TranscriptMirror? then [Arrive(line.f)]
    else if IsResult(line) then [FlushNow]
    else []
  }

  function Ops(s: Setting, lines: seq<Line>): seq<MirrorOp> {
    if lines == [] then [] else Ops(s, lines[..|lines| - 1]) + OpOf(s, lines[|lines| - 1])
  }

  lemma OpFrames(s: Setting, ops: seq<MirrorOp>, line: Line)
    ensures Frames(ops + OpOf(s, line)) == Frames(ops) + FrameIn(s, line)
  {
    var op := OpOf(s, line);
    if op == [] {
      assert ops + [] == ops && Frames(ops) + [] == Frames(ops);
    } else {
      assert (ops + op)[..|ops|] == ops && (ops + op)[|ops|] == op[0];
      assert Frames(ops) + [] == Frames(ops);
    }
  }

  lemma {:induction false} OpsFrames(s: Setting, lines: seq<Line>)
    ensures Frames(Ops(s, lines)) == FramesIn(s, lines)
  {
    if lines != [] {
      OpsFrames(s, lines[..|lines| - 1]);
      OpFrames(s, Ops(s, lines[..|lines| - 1]), lines[|lines| - 1]);
    }
  }

  lemma EventsOne(out: seq<Out>, o: Out)
    ensures Events(out + [o]) == Events(out) + if o.Mirrored? then [o.e] else []
  {
    assert (out + [o])[..|out|] == out;
  }

  lemma NoteEvents(s: Setting, out: seq<Out>, e: Event)
    ensures Events(Note(s, out, e)) == Events(out) + [e]
  {
    var r := out + [Mirrored(e)];
    EventsOne(out, Mirrored(e));
    if e.Report? && !s.full(|out|) {
      EventsOne(r, Put(MirrorError(e.of)));
    } else {
      assert Note(s, out, e) == r;
    }
  }

  lemma {:induction false} NotedEvents(s: Setting, out: seq<Out>, es: seq<Event>)
    ensures Events(Noted(s, out, es)) == Events(out) + es
  {
    if es != [] {
      NotedEvents(s, out, es[..|es| - 1]);
      NoteEvents(s, Noted(s, out, es[..|es| - 1]), es[|es| - 1]);
      FrontLast(es);
    }
  }

  /** The loop has done to the mirror what its operations do, and passed on just that. */
  predicate Runs(s: Setting, l: Loop, ops: seq<MirrorOp>) {
    RunMirror(s.c, ops) == MirrorRun(l.pending, l.tried, Events(l.out))
  }

  lemma {:induction false} RunNext(c: Config, ops: seq<MirrorOp>, op: MirrorOp)
    ensures RunMirror(c, ops + [op]) == StepMirror(c, RunMirror(c, ops), op)
  {
    assert (ops + [op])[..|ops|] == ops;
  }

  /** What the loop flushes by, if it has a mirror. */
  function FlushOp(s: Setting): seq<MirrorOp> {
    if s.store then [FlushNow] else []
  }

  lemma FlushRuns(s: Setting, l: Loop, ops: seq<MirrorOp>)
    requires Runs(s, l, ops) && (!s.store ==> l.pending == [])
    ensures Runs(s, FlushLoop(s, l), ops + FlushOp(s)) && FlushLoop(s, l).pending == []
  {
    if s.store {
      RunNext(s.c, ops, FlushNow);
      NotedEvents(s, l.out, Flushed(s.c, l.tried, l.pending));
    } else {
      assert ops + [] == ops;
    }
  }

  lemma FrameRuns(s: Setting, l: Loop, f: Frame, ops: seq<MirrorOp>)
    requires Runs(s, l, ops)
    ensures Runs(s, HandleLine(s, l, TranscriptMirror(f)), ops + OpOf(s, TranscriptMirror(f)))
  {
    if s.store {
      RunNext(s.c, ops, Arrive(f));
      NotedEvents(s, l.out, Enqueued(s.c, l.tried, l.pending, f).1);
    } else {
      assert ops + [] == ops;
    }
  }

  lemma HandleRuns(s: Setting, l: Loop, line: Line, ops: seq<MirrorOp>)
    requires Runs(s, l, ops) && (!s.store ==> l.pending == [])
    ensures Runs(s, HandleLine(s, l, line), ops + OpOf(s, line)) && (!s.store ==> HandleLine(s, l, line).pending == [])
  {
    if line.TranscriptMirror? {
      FrameRuns(s, l, line.f, ops);
    } else if line.Message? {
      MessageRuns(s, l, line, ops);
    } else {
      assert ops + [] == ops;
      EventsOne(l.out, ErrSent(true));
      EventsOne(l.out, ErrSent(false));
    }
  }

  /** Putting a message, or leaving for the context, is nothing to the mirror. */
  lemma PutRuns(s: Setting, f: Loop, m: Msg, stop: Stop, ops: seq<MirrorOp>)
    requires Runs(s, f, ops)
    ensures Runs(s, f.(stop := stop), ops) && Runs(s, f.(out := f.out + [Put(m)]), ops)
  {
    EventsOne(f.out, Put(m));
  }

  lemma MessageRuns(s: Setting, l: Loop, line: Line, ops: seq<MirrorOp>)
    requires Runs(s, l, ops) && (!s.store ==> l.pending == []) && line.Message?
    ensures Runs(s, HandleLine(s, l, line), ops + OpOf(s, line)) && (!s.store ==> HandleLine(s, l, line).pending == [])
  {
    if line.isResult {
      FlushRuns(s, l, ops);
      PutRuns(s, FlushLoop(s, l), Converted(line.tag, true), AtContext, ops + FlushOp(s));
    } else {
      assert ops + [] == ops;
      PutRuns(s, l, Converted(line.tag, false), AtContext, ops);
    }
  }

  lemma {:induction false} LinesRun(s: Setting, lines: seq<Line>)
    ensures var l := Lines(s, lines);
      && l.seen <= |lines| && (l.stop == Running ==> l.seen == |lines|)
      && Runs(s, l, Ops(s, lines[..l.seen])) && (!s.store ==> l.pending == [])
  {
    if lines != [] {
      var front, line := lines[..|lines| - 1], lines[|lines| - 1];
      LinesRun(s, front);
      var l := Lines(s, front);
      FrontLast(lines);
      if l.stop == Running {
        assert front[..|front|] == front && lines[..|lines|] == lines;
        HandleRuns(s, l, line, Ops(s, front));
      } else {
        assert lines[..l.seen] == front[..l.seen];
      }
    }
  }

  /** The k-th line's result was put after the attempts of everything received before it, when the mirror had
      done all it does by then with nothing left pending, and after exactly the messages of the lines before. */
  ghost predicate ResultInOrder(s: Setting, out: seq<Out>, lines: seq<Line>, k: nat)
    requires k < |lines| && lines[k].Message?
  {
    exists p :: 0 <= p < |out| && PutAt(s, out, lines, k, p)
  }

  ghost predicate PutAt(s: Setting, out: seq<Out>, lines: seq<Line>, k: nat, p: nat)
    requires k < |lines| && lines[k].Message? && p < |out|
  {
    && out[p] == Put(Converted(lines[k].tag, lines[k].isResult))
    && AllAttempted(s, out[..p], FramesIn(s, lines[..k])) && Shown(out[..p]) == Messages(lines[..k])
    && SentBy(s, out[..p], lines[..k])
  }

  /** Of the lines given the mirror has nothing pending, and all it did is in out. */
  predicate SentBy(s: Setting, out: seq<Out>, lines: seq<Line>) {
    var r := RunMirror(s.c, Ops(s, lines) + FlushOp(s));
    r.pending == [] && Events(out) == r.out
  }

  ghost predicate PutsInOrder(s: Setting, l: Loop, lines: seq<Line>) {
    && l.seen <= |lines| && (l.stop == Running ==> l.seen == |lines|) && (l.stop == AtContext ==> l.seen > 0)
       && l.stop != AtReceive
    && Covered(s, l, FramesIn(s, lines[..l.seen]))
    && Shown(l.out) == Messages(lines[..PutLines(l)])
  }

  /** The results among the first n lines. */
  ghost predicate ResultsInOrder(s: Setting, out: seq<Out>, lines: seq<Line>, n: nat) {
    forall k {:trigger IsResult(lines[k])} :: 0 <= k < n && k < |lines| && IsResult(lines[k]) ==>
      ResultInOrder(s, out, lines, k)
  }

  ghost predicate InOrder(s: Setting, l: Loop, lines: seq<Line>) {
    && PutsInOrder(s, l, lines)
    && ResultsInOrder(s, l.out, lines, PutLines(l))
  }

  lemma ResultLater(s: Setting, out: seq<Out>, more: seq<Out>, lines: seq<Line>, all: seq<Line>, k: nat)
    requires out <= more && lines <= all && k < |lines| && lines[k].Message? && ResultInOrder(s, out, lines, k)
    ensures ResultInOrder(s, more, all, k)
  {
    var p :| 0 <= p < |out| && PutAt(s, out, lines, k, p);
    assert more[..p] == out[..p] && all[..k] == lines[..k];
    assert PutAt(s, more, all, k, p);
  }

  lemma MessagesEnd(lines: seq<Line>, line: Line)
    ensures Messages(lines + [line]) == Messages(lines) + MessageOf(line)
  {
    assert (lines + [line])[..|lines|] == lines;
  }

  lemma FramesEnd(s: Setting, lines: seq<Line>, line: Line)
    ensures FramesIn(s, lines + [line]) == FramesIn(s, lines) + FrameIn(s, line)
  {
    assert (lines + [line])[..|lines|] == lines;
  }

  /** What handling one line adds. */
  lemma HandleGrows(s: Setting, l: Loop, line: Line, frames: seq<Frame>)
    requires l.stop == Running && Covered(s, l, frames)
    ensures var h := HandleLine(s, l, line);
      && l.out <= h.out
      && Shown(h.out) == Shown(l.out) + (if h.stop == AtContext then [] else MessageOf(line))
      && (h.stop == AtContext ==> line.Message?)
      && Covered(s, h, frames + FrameIn(s, line))
  {
    var h := HandleLine(s, l, line);
    if line.Message? {
      MessageGrows(s, l, line, frames);
    } else if line.TranscriptMirror? {
      FrameGrows(s, l, line.f, frames);
    } else {
      if h.out != l.out {
        ShownOne(l.out, h.out[|l.out|]);
      }
      assert frames + FrameIn(s, line) == frames;
      CoveredLater(s, l, h, frames);
    }
  }

  lemma PutGrows(s: Setting, f: Loop, line: Line, frames: seq<Frame>, h: Loop)
    requires Covered(s, f, frames) && line.Message?
    requires h == f.(stop := AtContext) || h == f.(out := f.out + [Put(Converted(line.tag, line.isResult))])
    ensures f.out <= h.out && Covered(s, h, frames)
    ensures Shown(h.out) == Shown(f.out) + if h.out == f.out then [] else MessageOf(line)
  {
    ShownOne(f.out, Put(Converted(line.tag, line.isResult)));
    CoveredLater(s, f, h, frames);
  }

  lemma {:induction false} MessageGrows(s: Setting, l: Loop, line: Line, frames: seq<Frame>)
    requires l.stop == Running && Covered(s, l, frames) && line.Message?
    ensures var h := HandleLine(s, l, line);
      && l.out <= h.out
      && Shown(h.out) == Shown(l.out) + (if h.stop == AtContext then [] else MessageOf(line))
      && Covered(s, h, frames + FrameIn(s, line))
  {
    var f := if line.isResult then FlushLoop(s, l) else l;
    FlushCovers(s, l, frames);
    assert frames + FrameIn(s, line) == frames;
    PutGrows(s, f, line, frames, HandleLine(s, l, line));
  }

  lemma FrameGrows(s: Setting, l: Loop, f: Frame, frames: seq<Frame>)
    requires l.stop == Running && Covered(s, l, frames)
    ensures var h := HandleLine(s, l, TranscriptMirror(f));
      && l.out <= h.out && Shown(h.out) == Shown(l.out) && Covered(s, h, frames + FrameIn(s, TranscriptMirror(f)))
  {
    if !s.store {
      assert frames + FrameIn(s, TranscriptMirror(f)) == frames;
    } else if f.entries == [] {
      assert Noted(s, l.out, []) == l.out;
    } else {
      var p := l.(pending := l.pending + [f]);
      assert Covered(s, p, frames + [f]);
      FlushCovers(s, p, frames + [f]);
    }
  }

  lemma HandleResult(s: Setting, l: Loop, line: Line, lines: seq<Line>)
    requires l.stop == Running && l.seen == |lines| && InOrder(s, l, lines) && Runs(s, l, Ops(s, lines))
    requires IsResult(line) && HandleLine(s, l, line).stop != AtContext
    ensures ResultInOrder(s, HandleLine(s, l, line).out, lines + [line], |lines|)
  {
    assert (lines + [line])[..|lines|] == lines;
    FlushedBefore(s, l, lines);
    ResultPut(s, l, line);
    PutLast(s, FlushLoop(s, l).out, lines + [line], |lines|);
  }

  lemma ResultPut(s: Setting, l: Loop, line: Line)
    requires IsResult(line) && l.stop == Running && HandleLine(s, l, line).stop != AtContext
    ensures HandleLine(s, l, line).out == FlushLoop(s, l).out + [Put(Converted(line.tag, line.isResult))]
  {
  }

  lemma FlushedBefore(s: Setting, l: Loop, lines: seq<Line>)
    requires l.stop == Running && l.seen == |lines| && InOrder(s, l, lines) && Runs(s, l, Ops(s, lines))
    ensures var out := FlushLoop(s, l).out;
      AllAttempted(s, out, FramesIn(s, lines)) && Shown(out) == Messages(lines) && SentBy(s, out, lines)
  {
    assert lines[..|lines|] == lines;
    FlushCovers(s, l, FramesIn(s, lines));
    FlushRuns(s, l, Ops(s, lines));
  }

  lemma PutLast(s: Setting, out: seq<Out>, lines: seq<Line>, k: nat)
    requires k < |lines| && lines[k].Message? && AllAttempted(s, out, FramesIn(s, lines[..k]))
    requires Shown(out) == Messages(lines[..k]) && SentBy(s, out, lines[..k])
    ensures ResultInOrder(s, out + [Put(Converted(lines[k].tag, lines[k].isResult))], lines, k)
  {
    var all := out + [Put(Converted(lines[k].tag, lines[k].isResult))];
    assert all[..|out|] == out;
    assert PutAt(s, all, lines, k, |out|);
  }

  lemma StepInOrder(s: Setting, l: Loop, line: Line, lines: seq<Line>)
    requires InOrder(s, l, lines) && (l.stop == Running ==> Runs(s, l, Ops(s, lines)))
    ensures InOrder(s, StepLine(s, l, line), lines + [line])
  {
    StepPuts(s, l, line, lines);
    StepResults(s, l, line, lines);
  }

  lemma StepPuts(s: Setting, l: Loop, line: Line, lines: seq<Line>)
    requires PutsInOrder(s, l, lines)
    ensures PutsInOrder(s, StepLine(s, l, line), lines + [line]) && l.out <= StepLine(s, l, line).out
  {
    if l.stop == Running {
      HandlePuts(s, l, line, lines);
    } else {
      assert StepLine(s, l, line) == l;
      StoppedPuts(s, l, line, lines);
    }
  }

  lemma {:induction false} StoppedPuts(s: Setting, l: Loop, line: Line, lines: seq<Line>)
    requires PutsInOrder(s, l, lines) && l.stop != Running
    ensures PutsInOrder(s, l, lines + [line])
  {
    var all := lines + [line];
    assert all[..l.seen] == lines[..l.seen] && all[..PutLines(l)] == lines[..PutLines(l)];
  }

  lemma HandlePuts(s: Setting, l: Loop, line: Line, lines: seq<Line>)
    requires PutsInOrder(s, l, lines) && l.stop == Running
    ensures PutsInOrder(s, HandleLine(s, l, line).(seen := l.seen + 1), lines + [line])
      && l.out <= HandleLine(s, l, line).out
  {
    assert lines[..|lines|] == lines;
    HandleGrows(s, l, line, FramesIn(s, lines));
    HandledPuts(s, l, line, lines, HandleLine(s, l, line).(seen := l.seen + 1));
  }

  lemma HandledPuts(s: Setting, l: Loop, line: Line, lines: seq<Line>, h: Loop)
    requires l.seen == |lines| && h.seen == |lines| + 1 && l.stop == Running && Shown(l.out) == Messages(lines)
    requires Shown(h.out) == Shown(l.out) + (if h.stop == AtContext then [] else MessageOf(line))
    requires h.stop != AtReceive && Covered(s, h, FramesIn(s, lines) + FrameIn(s, line))
    ensures PutsInOrder(s, h, lines + [line])
  {
    var all := lines + [line];
    assert all[..h.seen] == all;
    FramesEnd(s, lines, line);
    PutsAre(l, line, lines, h);
  }

  lemma PutsAre(l: Loop, line: Line, lines: seq<Line>, h: Loop)
    requires l.seen == |lines| && h.seen == |lines| + 1 && l.stop == Running && Shown(l.out) == Messages(lines)
    requires Shown(h.out) == Shown(l.out) + (if h.stop == AtContext then [] else MessageOf(line))
    ensures Shown(h.out) == Messages((lines + [line])[..PutLines(h)])
  {
    var all := lines + [line];
    if h.stop == AtContext {
      assert all[..PutLines(h)] == lines;
    } else {
      assert all[..PutLines(h)] == all;
      MessagesEnd(lines, line);
    }
  }

  lemma StepResults(s: Setting, l: Loop, line: Line, lines: seq<Line>)
    requires InOrder(s, l, lines) && (l.stop == Running ==> Runs(s, l, Ops(s, lines)))
      && l.out <= StepLine(s, l, line).out
    ensures var t := StepLine(s, l, line); ResultsInOrder(s, t.out, lines + [line], PutLines(t))
  {
    var all, t := lines + [line], StepLine(s, l, line);
    forall k | 0 <= k < PutLines(t) && k < |all| && IsResult(all[k]) ensures ResultInOrder(s, t.out, all, k) {
      if k < PutLines(l) {
        assert IsResult(lines[k]);
        ResultLater(s, l.out, t.out, lines, all, k);
      } else {
        StepPutsLast(s, l, line, k);
        HandleResult(s, l, line, lines);
      }
    }
  }

  lemma StepPutsLast(s: Setting, l: Loop, line: Line, k: nat)
    requires PutLines(l) <= k < PutLines(StepLine(s, l, line)) && (l.stop == AtContext ==> l.seen > 0)
    ensures l.stop == Running && k == l.seen && HandleLine(s, l, line).stop != AtContext
  {
  }

  lemma {:induction false} LinesInOrder(s: Setting, lines: seq<Line>)
    ensures InOrder(s, Lines(s, lines), lines)
  {
    if lines != [] {
      var front, line := lines[..|lines| - 1], lines[|lines| - 1];
      LinesInOrder(s, front);
      var l := Lines(s, front);
      LinesRun(s, front);
      assert front[..|front|] == front;
      StepInOrder(s, l, line, front);
      FrontLast(lines);
    }
  }

  /** Over every sequence of lines: the messages put are the converted lines read, in arrival order, mirror
      errors aside; every entry received before a result has had its attempts, and nothing is pending, when
      that result is put; and nothing is pending when msgCh is closed, which is last. */
  lemma OrderKept(s: Setting, lines: seq<Line>)
    ensures var l := Read(s, lines);
      && l.seen <= |lines| && (l.stop == AtReceive ==> l.seen == |lines|)
      && Shown(l.out) == Messages(lines[..PutLines(l)])
      && ResultsInOrder(s, l.out, lines, PutLines(l))
      && l.out != [] && l.out[|l.out| - 1] == ChannelClosed
      && AllAttempted(s, l.out[..|l.out| - 1], FramesIn(s, lines[..l.seen]))
      && l.pending == [] && SentBy(s, l.out[..|l.out| - 1], lines[..l.seen])
  {
    LinesInOrder(s, lines);
    ReadSends(s, lines);
    FinishOrder(s, Lines(s, lines), lines);
  }

  lemma ReadSends(s: Setting, lines: seq<Line>)
    ensures var l := Read(s, lines);
      l.seen <= |lines| && l.pending == [] && l.out != [] && SentBy(s, l.out[..|l.out| - 1], lines[..l.seen])
  {
    var r := Lines(s, lines);
    LinesRun(s, lines);
    FinishSends(s, r, lines[..r.seen]);
  }

  lemma FinishOrder(s: Setting, r: Loop, lines: seq<Line>)
    requires InOrder(s, r, lines)
    ensures var l := Finished(s, r);
      && l.seen == r.seen && (l.stop == AtReceive ==> l.seen == |lines|)
      && Shown(l.out) == Messages(lines[..PutLines(l)])
      && ResultsInOrder(s, l.out, lines, PutLines(l))
      && l.out != [] && l.out[|l.out| - 1] == ChannelClosed
      && AllAttempted(s, l.out[..|l.out| - 1], FramesIn(s, lines[..l.seen]))
  {
    FinishKeeps(s, r, FramesIn(s, lines[..r.seen]));
    ResultsLater(s, r.out, Finished(s, r).out, lines, PutLines(r));
  }

  lemma ResultsLater(s: Setting, out: seq<Out>, more: seq<Out>, lines: seq<Line>, n: nat)
    requires out <= more && ResultsInOrder(s, out, lines, n)
    ensures ResultsInOrder(s, more, lines, n)
  {
    forall k | 0 <= k < n && k < |lines| && IsResult(lines[k]) ensures ResultInOrder(s, more, lines, k) {
      ResultLater(s, out, more, lines, lines, k);
    }
  }

  lemma FinishKeeps(s: Setting, r: Loop, frames: seq<Frame>)
    requires Covered(s, r, frames)
    ensures var l := Finished(s, r);
      && r.out <= l.out && Shown(l.out) == Shown(r.out) && l.seen == r.seen
      && (l.stop == if r.stop == Running then AtReceive else r.stop)
      && l.out != [] && l.out[|l.out| - 1] == ChannelClosed && AllAttempted(s, l.out[..|l.out| - 1], frames)
  {
    var e := if r.stop == Running then r.(out := r.out + [ErrSent(s.cleanEnd)], stop := AtReceive) else r;
    ShownOne(r.out, ErrSent(s.cleanEnd));
    CoveredLater(s, r, e, frames);
    FlushCovers(s, e, frames);
    var f := FlushLoop(s, e);
    ShownOne(f.out, ChannelClosed);
    assert (f.out + [ChannelClosed])[..|f.out|] == f.out;
  }

  lemma FinishSends(s: Setting, r: Loop, lines: seq<Line>)
    requires Runs(s, r, Ops(s, lines)) && (!s.store ==> r.pending == [])
    ensures var l := Finished(s, r); l.pending == [] && l.out != [] && SentBy(s, l.out[..|l.out| - 1], lines)
  {
    var e := if r.stop == Running then r.(out := r.out + [ErrSent(s.cleanEnd)], stop := AtReceive) else r;
    EventsOne(r.out, ErrSent(s.cleanEnd));
    FlushRuns(s, e, Ops(s, lines));
    var f := FlushLoop(s, e);
    assert (f.out + [ChannelClosed])[..|f.out|] == f.out;
  }

  // What the store holds by then.

  /** With a store that never fails and nothing crossed, when a result is put the store holds, under every key,
      exactly what arrived for it before the result, in order. */
  lemma StoredAtResult(s: Setting, lines: seq<Line>, k: nat, key: SessionKey) returns (p: nat)
    requires s.store && NeverFails(s.c) && k < |lines| && k < PutLines(Read(s, lines)) && IsResult(lines[k])
    requires Calm(s.c, Ops(s, lines[..k]))
    ensures var out := Read(s, lines).out;
      && p < |out| && out[p] == Put(Converted(lines[k].tag, true)) && Shown(out[..p]) == Messages(lines[..k])
      && Stored(Events(out[..p]), key) == Arrived(s.c, FramesIn(s, lines[..k]), key)
  {
    var out := Read(s, lines).out;
    OrderKept(s, lines);
    assert ResultInOrder(s, out, lines, k);
    p :| 0 <= p < |out| && PutAt(s, out, lines, k, p);
    MirrorConserves(s.c, Ops(s, lines[..k]), key);
    OpsFrames(s, lines[..k]);
  }

  /** And when msgCh is closed, everything that arrived. */
  lemma StoredAtClose(s: Setting, lines: seq<Line>, key: SessionKey)
    requires s.store && NeverFails(s.c)
    requires Calm(s.c, Ops(s, lines[..if Read(s, lines).seen < |lines| then Read(s, lines).seen else |lines|]))
    ensures var l := Read(s, lines);
      l.seen <= |lines| && Stored(Events(l.out[..|l.out| - 1]), key) == Arrived(s.c, FramesIn(s, lines[..l.seen]), key)
  {
    var l := Read(s, lines);
    OrderKept(s, lines);
    MirrorConserves(s.c, Ops(s, lines[..l.seen]), key);
    OpsFrames(s, lines[..l.seen]);
  }

  /** However attempts go and land, when a result is put an adapter that skips the uuids it holds has only what
      arrived for the key before, no uuid twice, and all of it unless the key was reported by then. */
  lemma HeldAtResult(s: Setting, lines: seq<Line>, k: nat, key: SessionKey, held: seq<Entry>) returns (p: nat)
    requires s.store && OwnUuids(held) && k < |lines| && k < PutLines(Read(s, lines)) && IsResult(lines[k])
    ensures var out := Read(s, lines).out;
      && p < |out| && out[p] == Put(Converted(lines[k].tag, true)) && Shown(out[..p]) == Messages(lines[..k])
      && var es, arrived := Events(out[..p]), Arrived(s.c, FramesIn(s, lines[..k]), key);
         forall ls :: Lands(ls, es) ==> Safely(held, arrived, Landed(held, ls, key), Report(Some(key)) in es)
  {
    var out := Read(s, lines).out;
    OrderKept(s, lines);
    assert ResultInOrder(s, out, lines, k);
    p :| 0 <= p < |out| && PutAt(s, out, lines, k, p);
    OpsFrames(s, lines[..k]);
    forall ls | Lands(ls, Events(out[..p]))
      ensures Safely(held, Arrived(s.c, FramesIn(s, lines[..k]), key), Landed(held, ls, key),
                     Report(Some(key)) in Events(out[..p]))
    {
      RunExactlyOnce(s.c, Ops(s, lines[..k]), key, held, ls);
    }
  }

  // How the loop ends.

  /** The errors sent, true for nil. */
  function Errors(out: seq<Out>): seq<bool> {
    if out == [] then [] else Errors(out[..|out| - 1]) + ErrorIn(out[|out| - 1])
  }

  function ErrorIn(o: Out): seq<bool> {
    if o.ErrSent? then [o.isNil] else []
  }

  lemma ErrorsOne(out: seq<Out>, o: Out)
    ensures Errors(out + [o]) == if o.ErrSent? then Errors(out) + [o.isNil] else Errors(out)
  {
    assert (out + [o])[..|out|] == out;
  }

  lemma FirstError(out: seq<Out>, isNil: bool)
    requires Errors(out) == []
    ensures Errors(out + [ErrSent(isNil)]) == [isNil]
  {
    ErrorsOne(out, ErrSent(isNil));
  }

  lemma NoteErrors(s: Setting, out: seq<Out>, e: Event)
    ensures Errors(Note(s, out, e)) == Errors(out)
  {
    var r := out + [Mirrored(e)];
    ErrorsOne(out, Mirrored(e));
    if e.Report? && !s.full(|out|) {
      ErrorsOne(r, Put(MirrorError(e.of)));
    } else {
      assert Note(s, out, e) == r;
    }
  }

  lemma {:induction false} NotedErrors(s: Setting, out: seq<Out>, es: seq<Event>)
    ensures Errors(Noted(s, out, es)) == Errors(out)
  {
    if es != [] {
      NotedErrors(s, out, es[..|es| - 1]);
      NoteErrors(s, Noted(s, out, es[..|es| - 1]), es[|es| - 1]);
    }
  }

  lemma FlushErrors(s: Setting, l: Loop)
    ensures Errors(FlushLoop(s, l).out) == Errors(l.out)
  {
    NotedErrors(s, l.out, Flushed(s.c, l.tried, l.pending));
  }

  /** What the k-th line sends on errCh if it ends the loop: nil for an end line, an error for an error line or one
      that does not parse, nothing when the context wins over its message. */
  function Ending(s: Setting, k: nat, line: Line): Option<seq<bool>> {
    match line
    case End => Some([true])
    case ErrorLine => Some([false])
    case Unparsable => Some([false])
    case Message(_, _) => if s.ctxWins(k) then Some([]) else None
    case _ => None
  }

  /** Read up to a first line that ends the loop, or to the end. */
  predicate EndedAt(s: Setting, lines: seq<Line>, l: Loop) {
    && l.seen <= |lines|
    && (forall j :: 0 <= j < l.seen && (l.stop == Running || j < l.seen - 1) ==> Ending(s, j, lines[j]) == None)
    && if l.stop == Running then l.seen == |lines| && Errors(l.out) == []
       else l.seen > 0 && Ending(s, l.seen - 1, lines[l.seen - 1]) == Some(Errors(l.out))
  }

  lemma PutErrors(s: Setting, f: Loop, line: Line, h: Loop)
    requires Errors(f.out) == [] && f.stop == Running && line.Message?
    requires h == if s.ctxWins(f.seen) then f.(stop := AtContext)
                  else f.(out := f.out + [Put(Converted(line.tag, line.isResult))])
    ensures Errors(h.out) == [] && h.seen == f.seen && (h.stop == Running <==> Ending(s, f.seen, line) == None)
  {
    ErrorsOne(f.out, Put(Converted(line.tag, line.isResult)));
  }

  /** The line does what it says to a loop that has sent nothing yet. */
  predicate DoesAsSaid(s: Setting, k: nat, line: Line, h: Loop) {
    h.seen == k
      && if h.stop == Running then Ending(s, k, line) == None && Errors(h.out) == []
         else Ending(s, k, line) == Some(Errors(h.out))
  }

  lemma MessageErrors(s: Setting, l: Loop, line: Line)
    requires l.stop == Running && Errors(l.out) == [] && line.Message?
    ensures DoesAsSaid(s, l.seen, line, HandleLine(s, l, line))
  {
    FlushErrors(s, l);
    PutErrors(s, if line.isResult then FlushLoop(s, l) else l, line, HandleLine(s, l, line));
  }

  lemma HandleErrors(s: Setting, l: Loop, line: Line)
    requires l.stop == Running && Errors(l.out) == []
    ensures DoesAsSaid(s, l.seen, line, HandleLine(s, l, line))
  {
    if line.TranscriptMirror? {
      NotedErrors(s, l.out, Enqueued(s.c, l.tried, l.pending, line.f).1);
    } else if line.Message? {
      MessageErrors(s, l, line);
    } else {
      FirstError(l.out, true);
      FirstError(l.out, false);
    }
  }

  lemma EndedNext(s: Setting, lines: seq<Line>, line: Line, l: Loop)
    requires EndedAt(s, lines, l)
    ensures EndedAt(s, lines + [line], StepLine(s, l, line))
  {
    var all := lines + [line];
    assert forall j :: 0 <= j < |lines| ==> all[j] == lines[j];
    if l.stop == Running {
      HandleErrors(s, l, line);
      assert all[l.seen] == line;
    }
  }

  lemma {:induction false} LinesEnd(s: Setting, lines: seq<Line>)
    ensures EndedAt(s, lines, Lines(s, lines))
  {
    if lines != [] {
      LinesEnd(s, lines[..|lines| - 1]);
      EndedNext(s, lines[..|lines| - 1], lines[|lines| - 1], Lines(s, lines[..|lines| - 1]));
      FrontLast(lines);
    }
  }

  lemma FinishErrors(s: Setting, l: Loop)
    requires l.stop == Running ==> Errors(l.out) == []
    ensures Finished(s, l).seen == l.seen
    ensures Errors(Finished(s, l).out) == if l.stop == Running then [s.cleanEnd] else Errors(l.out)
  {
    var e := if l.stop == Running then l.(out := l.out + [ErrSent(s.cleanEnd)], stop := AtReceive) else l;
    if l.stop == Running {
      FirstError(l.out, s.cleanEnd);
    }
    FlushErrors(s, e);
    ErrorsOne(FlushLoop(s, e).out, ChannelClosed);
  }

  /** The loop reads up to the first line that ends it and sends what that line says; without such a line it reads
      them all and sends, when Receive fails, nil exactly for the end of the stream or of the context. */
  lemma {:induction false} WhyReadEnds(s: Setting, lines: seq<Line>)
    ensures var r := Read(s, lines);
      && r.seen <= |lines| && (forall j :: 0 <= j < r.seen - 1 ==> Ending(s, j, lines[j]) == None)
      && if r.seen > 0 && Ending(s, r.seen - 1, lines[r.seen - 1]) != None
         then Ending(s, r.seen - 1, lines[r.seen - 1]) == Some(Errors(r.out))
         else r.seen == |lines| && Errors(r.out) == [s.cleanEnd]
  {
    LinesEnd(s, lines);
    FinishErrors(s, Lines(s, lines));
  }
}
