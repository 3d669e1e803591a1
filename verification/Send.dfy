/** Concurrent Sends on one pipe: domains/transport/subprocess/subprocess.go. Each Send is a caller and
    the goroutine it starts; every step that another party can see between is a step of its own. */
module Send {
  import opened Json
  import opened Seqs

  type Byte = b: int | 0 <= b < 256

  const NEWLINE: Byte := 10

  /** The `state` of one Send, guarded by its stateMu. */
  datatype Phase = Pending | Writing | Finished | Abandoned

  datatype WriteErr = NoErr | DeadlineExceeded | OtherErr

  /** Where the goroutine is: `Ready` has set its phase to Writing but not called Write yet. */
  datatype Goroutine = NotStarted | Queued | Locked | Ready | InWrite | Wrote | Marked | Cleared | Sent | Exited

  datatype Return = Nil | CtxErr | ClosedPipe | Failed

  datatype Caller = Entered | Checked | Selecting | Cancelling | Awaiting | Closing | Returned(ret: Return)

  /** `n` and `err` are what Write has put on the pipe and returned; `open` is whether stdin was open
      when Write was called. */
  datatype Call = Call(line: seq<Byte>, ctxDone: bool, phase: Phase, go: Goroutine, n: nat, err: WriteErr, open: bool,
      caller: Caller)

  /** `order` is history: the Sends that called Write, in that order. */
  datatype State = State(calls: seq<Call>, holder: Option<nat>, deadline: bool, stdinClosed: bool, done: bool,
      stdin: seq<Byte>, order: seq<nat>)

  const INIT := State([], None, false, false, false, [], [])

  function NewCall(data: seq<Byte>): Call {
    Call(data + [NEWLINE], false, Pending, NotStarted, 0, NoErr, false, Entered)
  }

  datatype Label =
    | Enter(data: seq<Byte>)
    | CtxEnds(i: nat)
    | CheckCtx(i: nat)
    | CheckDone(i: nat)
    | Lock(i: nat)
    | CheckPhase(i: nat)
    | BeginWrite(i: nat)
    | Chunk(i: nat, k: nat)
    | WriteReturns(i: nat, err: WriteErr)
    | MarkFinished(i: nat)
    | ClearDeadline(i: nat)
    | SendResult(i: nat)
    | Unlock(i: nat)
    | TakeResult(i: nat)
    | SeeDone(i: nat)
    | SeeCtx(i: nat)
    | Cancel(i: nat, deadlineFails: bool)
    | TakeLate(i: nat)
    | CloseStdin(i: nat)
    | CloseDone
    | ClosePipe

  /** The steps that change the Send's own record: None where the step cannot happen now. */
  function Local(x: Call, l: Label, s: State): Option<Call> {
    match l
    case CtxEnds(_) => Some(x.(ctxDone := true))
    case CheckCtx(_) =>
      if x.caller != Entered then None else Some(x.(caller := if x.ctxDone then Returned(CtxErr) else Checked))
    case CheckDone(_) =>
      if x.caller != Checked then None else
      if s.done then Some(x.(caller := Returned(ClosedPipe)))
      else Some(x.(caller := Selecting, go := Queued))
    case Lock(_) => if x.go == Queued && s.holder == None then Some(x.(go := Locked)) else None
    case CheckPhase(_) =>
      if x.go != Locked then None else
      if x.phase == Abandoned then Some(x.(go := Sent))
      else Some(x.(phase := Writing, go := Ready))
    case BeginWrite(_) => if x.go == Ready then Some(x.(go := InWrite, open := !s.stdinClosed)) else None
    case Chunk(_, k) =>
      if x.go == InWrite && x.open && 0 < k && x.n + k <= |x.line| then Some(x.(n := x.n + k)) else None
    case WriteReturns(_, err) =>
      if x.go == InWrite && (err == NoErr ==> x.n == |x.line|) && (err == DeadlineExceeded ==> s.deadline)
      then Some(x.(go := Wrote, err := err)) else None
    case MarkFinished(_) => if x.go == Wrote then Some(x.(go := Marked, phase := Finished)) else None
    case ClearDeadline(_) => if x.go == Marked then Some(x.(go := Cleared)) else None
    case SendResult(_) => if x.go == Cleared then Some(x.(go := Sent)) else None
    case Unlock(_) => if x.go == Sent then Some(x.(go := Exited)) else None
    case TakeResult(_) =>
      if x.caller == Selecting && Delivered(x)
      then Some(x.(caller := Returned(if x.err == NoErr then Nil else Failed))) else None
    case SeeDone(_) => if x.caller == Selecting && s.done then Some(x.(caller := Returned(ClosedPipe))) else None
    case SeeCtx(_) => if x.caller == Selecting && x.ctxDone then Some(x.(caller := Cancelling)) else None
    case Cancel(_, deadlineFails) =>
      if x.caller != Cancelling then None else
      if x.phase == Pending then Some(x.(phase := Abandoned, caller := Returned(CtxErr)))
      else if x.phase == Writing && deadlineFails then Some(x.(caller := Closing))
      else Some(x.(caller := Awaiting))
    case TakeLate(_) =>
      if x.caller != Awaiting || !Delivered(x) then None else
      if x.err == NoErr && x.n == |x.line| then Some(x.(caller := Returned(Nil)))
      else if x.n == 0 && x.err == DeadlineExceeded then Some(x.(caller := Returned(CtxErr)))
      else Some(x.(caller := Closing))
    case CloseStdin(_) => if x.caller == Closing then Some(x.(caller := Returned(CtxErr))) else None
    case _ => None
  }

  /** The result is on the one-slot channel. */
  predicate Delivered(x: Call) {
    x.go == Sent || x.go == Exited
  }

  /** What the step does to the state all Sends share; x is the Send before the step. */
  function Shared(s: State, l: Label, x: Call): State
    requires x.n <= |x.line| && (l.Chunk? ==> x.n + l.k <= |x.line|)
  {
    match l
    case Lock(i) => s.(holder := Some(i))
    case BeginWrite(i) => s.(order := s.order + [i])
    case Chunk(_, k) => s.(stdin := s.stdin + x.line[x.n..x.n + k])
    case ClearDeadline(_) => s.(deadline := false)
    case Unlock(_) => s.(holder := None)
    case Cancel(_, deadlineFails) => if x.phase == Writing && !deadlineFails then s.(deadline := true) else s
    case CloseStdin(_) => s.(stdinClosed := true)
    case _ => s
  }

  predicate WithinLine(x: Call) {
    x.n <= |x.line|
  }

  /** One step; a step that cannot happen now changes nothing. */
  function Step(s: State, l: Label): State {
    match l
    case Enter(data) => s.(calls := s.calls + [NewCall(data)])
    case CloseDone => s.(done := true)
    case ClosePipe => if s.done then s.(stdinClosed := true) else s
    case _ =>
      if l.i < |s.calls| && WithinLine(s.calls[l.i]) && Local(s.calls[l.i], l, s).Some? then
        Shared(s, l, s.calls[l.i]).(calls := s.calls[l.i := Local(s.calls[l.i], l, s).value])
      else s
  }

  function Exec(s: State, ls: seq<Label>): State {
    if ls == [] then s else Step(Exec(s, ls[..|ls| - 1]), ls[|ls| - 1])
  }

  // The invariant.

  /** From taking the lock to releasing it. */
  predicate Holds(g: Goroutine) {
    g == Locked || g == Ready || g == InWrite || g == Wrote || g == Marked || g == Cleared || g == Sent
  }

  /** Write has been called. */
  predicate Begun(x: Call) {
    x.phase != Abandoned
      && (x.go == InWrite || x.go == Wrote || x.go == Marked || x.go == Cleared || x.go == Sent || x.go == Exited)
  }

  /** Write has returned. */
  predicate Written(x: Call) {
    Begun(x) && x.go != InWrite
  }

  predicate PhaseFits(x: Call) {
    match x.go
    case NotStarted =>
      x.phase == Pending
        && (x.caller == Entered || x.caller == Checked || x.caller == Returned(CtxErr)
           || x.caller == Returned(ClosedPipe))
    case Queued => x.phase == Pending || x.phase == Abandoned
    case Locked => x.phase == Pending || x.phase == Abandoned
    case Ready => x.phase == Writing
    case InWrite => x.phase == Writing
    case Wrote => x.phase == Writing
    case Marked => x.phase == Finished
    case Cleared => x.phase == Finished
    case _ => x.phase == Finished || x.phase == Abandoned
  }

  predicate WriteFits(x: Call) {
    && 0 < |x.line| && x.n <= |x.line|
    && (!Begun(x) ==> x.n == 0)
    && (x.n > 0 ==> x.open)
    && (Written(x) && x.err == NoErr ==> x.n == |x.line|)
    && (Written(x) && x.err == DeadlineExceeded
       ==> x.caller == Awaiting || x.caller == Closing || x.caller == Returned(CtxErr))
  }

  predicate CallerFits(x: Call, deadline: bool, stdinClosed: bool, done: bool) {
    && (x.phase == Abandoned ==> x.caller == Returned(CtxErr))
    && (x.caller == Entered || x.caller == Checked ==> x.go == NotStarted)
    && (x.caller == Awaiting || x.caller == Closing ==> x.phase == Writing || x.phase == Finished)
    && (x.caller == Cancelling || x.caller == Awaiting || x.caller == Closing ==> x.ctxDone)
    && (x.caller == Awaiting && (x.go == Ready || x.go == InWrite) ==> deadline)
    && (deadline ==> x.caller == Awaiting && (x.go == Ready || x.go == InWrite || x.go == Wrote || x.go == Marked))
    && (x.caller == Returned(Nil) ==> Delivered(x) && Begun(x) && x.n == |x.line|)
    && (x.caller == Returned(Failed) ==> Delivered(x) && Begun(x) && x.err != NoErr)
    && (x.caller == Returned(CtxErr) ==> x.ctxDone && (Silent(x) || stdinClosed))
    && (x.caller == Returned(ClosedPipe) ==> done)
  }

  /** It has put no byte on the pipe and never will. */
  predicate Silent(x: Call) {
    x.n == 0 && (x.phase == Abandoned || (x.go == NotStarted && x.caller.Returned?) || Written(x))
  }

  predicate CallOk(x: Call, holds: bool, deadline: bool, stdinClosed: bool, done: bool) {
    PhaseFits(x) && WriteFits(x) && CallerFits(x, deadline, stdinClosed, done) && (holds <==> Holds(x.go))
  }

  predicate CallFits(s: State, i: nat)
    requires i < |s.calls|
  {
    CallOk(s.calls[i], s.holder == Some(i), s.deadline && s.holder == Some(i), s.stdinClosed, s.done)
  }

  ghost predicate CallsOk(s: State) {
    && (s.holder.Some? ==> s.holder.value < |s.calls|)
    && (s.deadline ==> s.holder.Some?)
    && forall i {:trigger CallFits(s, i)} :: 0 <= i < |s.calls| ==> CallFits(s, i)
  }

  predicate Targets(s: State, l: Label) {
    && !l.Enter? && !l.CloseDone? && !l.ClosePipe?
    && l.i < |s.calls| && WithinLine(s.calls[l.i]) && Local(s.calls[l.i], l, s).Some?
  }

  lemma CallerStep(s: State, l: Label)
    requires CallsOk(s) && Targets(s, l)
      && (l.CtxEnds? || l.CheckCtx? || l.CheckDone? || l.SeeDone? || l.SeeCtx? || l.CloseStdin?)
    ensures CallFits(Step(s, l), l.i)
  {
    assert CallFits(s, l.i);
  }

  lemma CancelStep(s: State, l: Label)
    requires CallsOk(s) && Targets(s, l) && l.Cancel?
    ensures CallFits(Step(s, l), l.i)
  {
    assert CallFits(s, l.i);
  }

  lemma TakeStep(s: State, l: Label)
    requires CallsOk(s) && Targets(s, l) && l.TakeResult?
    ensures CallFits(Step(s, l), l.i)
  {
    assert CallFits(s, l.i);
  }

  lemma TakeLateStep(s: State, l: Label)
    requires CallsOk(s) && Targets(s, l) && l.TakeLate?
    ensures CallFits(Step(s, l), l.i)
  {
    assert CallFits(s, l.i);
  }

  lemma WriteStep(s: State, l: Label)
    requires CallsOk(s) && Targets(s, l) && (l.CheckPhase? || l.BeginWrite? || l.Chunk? || l.WriteReturns?)
    ensures CallFits(Step(s, l), l.i)
  {
    assert CallFits(s, l.i);
  }

  lemma {:induction false} ReleaseStep(s: State, l: Label)
    requires CallsOk(s) && Targets(s, l) && (l.MarkFinished? || l.ClearDeadline? || l.SendResult?)
    ensures CallFits(Step(s, l), l.i)
  {
    assert CallFits(s, l.i);
  }

  lemma {:induction false} LockStep(s: State, l: Label)
    requires CallsOk(s) && Targets(s, l) && l.Lock?
    ensures CallFits(Step(s, l), l.i)
  {
    assert CallFits(s, l.i);
  }

  lemma {:induction false} UnlockStep(s: State, l: Label)
    requires CallsOk(s) && Targets(s, l) && l.Unlock?
    ensures CallFits(Step(s, l), l.i)
  {
    assert CallFits(s, l.i);
  }

  /** The Send that steps still fits. */
  lemma {:induction false} OwnStepFits(s: State, l: Label)
    requires CallsOk(s) && Targets(s, l)
    ensures CallFits(Step(s, l), l.i)
  {
    if l.CheckPhase? || l.BeginWrite? || l.Chunk? || l.WriteReturns? {
      WriteStep(s, l);
    } else if l.MarkFinished? || l.ClearDeadline? || l.SendResult? {
      ReleaseStep(s, l);
    } else if l.Lock? {
      LockStep(s, l);
    } else if l.Unlock? {
      UnlockStep(s, l);
    } else if l.Cancel? {
      CancelStep(s, l);
    } else if l.TakeResult? {
      TakeStep(s, l);
    } else if l.TakeLate? {
      TakeLateStep(s, l);
    } else {
      CallerStep(s, l);
    }
  }

  lemma {:induction false} OtherStep(s: State, l: Label, j: nat)
    requires CallsOk(s) && Targets(s, l) && j < |s.calls| && j != l.i
    ensures CallFits(Step(s, l), j)
  {
    assert CallFits(s, l.i) && CallFits(s, j);
  }

  lemma {:induction false} StepCallsOk(s: State, l: Label)
    requires CallsOk(s)
    ensures CallsOk(Step(s, l))
  {
    var t := Step(s, l);
    if Targets(s, l) {
      assert CallFits(s, l.i);
      OwnStepFits(s, l);
      forall j | 0 <= j < |t.calls| ensures CallFits(t, j) {
        if j != l.i {
          OtherStep(s, l, j);
        }
      }
    } else {
      forall j | 0 <= j < |t.calls| ensures CallFits(t, j) {
        if j < |s.calls| {
          assert CallFits(s, j);
        }
      }
    }
  }

  /** The bytes Send i has put on the pipe. */
  function Part(calls: seq<Call>, i: nat): seq<Byte> {
    if i < |calls| && WithinLine(calls[i]) then calls[i].line[..calls[i].n] else []
  }

  function Flat(calls: seq<Call>, order: seq<nat>): seq<Byte> {
    if order == [] then [] else Flat(calls, order[..|order| - 1]) + Part(calls, order[|order| - 1])
  }

  lemma {:induction false} FlatSame(calls: seq<Call>, later: seq<Call>, order: seq<nat>)
    requires forall i :: i in order ==> Part(calls, i) == Part(later, i)
    ensures Flat(calls, order) == Flat(later, order)
  {
    if order != [] {
      FlatSame(calls, later, order[..|order| - 1]);
      assert order[|order| - 1] in order;
    }
  }

  /** The p-th Send that wrote: a Send that has called Write, and for the first time. */
  predicate OrderFits(s: State, p: nat)
    requires p < |s.order|
  {
    s.order[p] < |s.calls| && Begun(s.calls[s.order[p]]) && s.order[p] !in s.order[..p]
  }

  predicate Ordered(s: State, i: nat)
    requires i < |s.calls|
  {
    && (Begun(s.calls[i]) ==> i in s.order)
    && (s.calls[i].go == InWrite ==> s.order != [] && s.order[|s.order| - 1] == i)
  }

  ghost predicate PipeOk(s: State) {
    && (forall p {:trigger OrderFits(s, p)} :: 0 <= p < |s.order| ==> OrderFits(s, p))
    && (forall i {:trigger Ordered(s, i)} :: 0 <= i < |s.calls| ==> Ordered(s, i))
    && s.stdin == Flat(s.calls, s.order)
  }

  lemma {:induction false} TargetCalls(s: State, l: Label)
    requires Targets(s, l)
    ensures Step(s, l).calls == s.calls[l.i := Local(s.calls[l.i], l, s).value]
  {
  }

  lemma {:induction false} IdleCalls(s: State, l: Label)
    requires !Targets(s, l)
    ensures Step(s, l).calls == if l.Enter? then s.calls + [NewCall(l.data)] else s.calls
  {
  }

  /** What a step does to one Send. */
  lemma {:induction false} StepOwn(s: State, l: Label, i: nat)
    requires i < |s.calls|
    ensures |Step(s, l).calls| >= |s.calls|
    ensures Step(s, l).calls[i] == if Targets(s, l) && l.i == i then Local(s.calls[i], l, s).value else s.calls[i]
  {
    if Targets(s, l) {
      TargetCalls(s, l);
    } else {
      IdleCalls(s, l);
    }
  }

  lemma {:induction false} QuietLocal(s: State, l: Label, x: Call)
    requires PhaseFits(x) && (x.caller == Checked ==> x.go == NotStarted) && !l.BeginWrite? && !l.Chunk?
    ensures Local(x, l, s).Some? ==> SameWrite(x, Local(x, l, s).value)
  {
  }

  lemma {:induction false} QuietCall(s: State, l: Label)
    requires CallsOk(s) && Targets(s, l) && !l.BeginWrite? && !l.Chunk?
    ensures SameWrite(s.calls[l.i], Step(s, l).calls[l.i])
  {
    assert CallFits(s, l.i);
    StepOwn(s, l, l.i);
    QuietLocal(s, l, s.calls[l.i]);
  }

  predicate SameWrite(x: Call, y: Call) {
    Begun(x) == Begun(y) && x.n == y.n && x.line == y.line && (y.go == InWrite ==> x.go == InWrite)
  }

  lemma {:induction false} SamePipe(s: State, t: State)
    requires PipeOk(s) && t.order == s.order && t.stdin == s.stdin && |t.calls| >= |s.calls|
    requires forall i {:trigger t.calls[i]} :: 0 <= i < |t.calls| ==>
      if i < |s.calls| then SameWrite(s.calls[i], t.calls[i]) else !Begun(t.calls[i]) && t.calls[i].go != InWrite
    ensures PipeOk(t)
  {
    forall p | 0 <= p < |t.order| ensures OrderFits(t, p) {
      assert OrderFits(s, p);
      assert SameWrite(s.calls[s.order[p]], t.calls[s.order[p]]);
    }
    forall i | 0 <= i < |t.calls| ensures Ordered(t, i) {
      if i < |s.calls| {
        assert Ordered(s, i) && SameWrite(s.calls[i], t.calls[i]);
      }
    }
    SamePartAll(s, t);
    FlatSame(s.calls, t.calls, s.order);
  }

  lemma {:induction false} SamePartAll(s: State, t: State)
    requires PipeOk(s) && |t.calls| >= |s.calls|
    requires forall i {:trigger t.calls[i]} :: 0 <= i < |s.calls| ==> SameWrite(s.calls[i], t.calls[i])
    ensures forall i :: i in s.order ==> Part(s.calls, i) == Part(t.calls, i)
  {
    forall i | i in s.order ensures Part(s.calls, i) == Part(t.calls, i) {
      var p :| 0 <= p < |s.order| && s.order[p] == i;
      assert OrderFits(s, p);
      assert SameWrite(s.calls[i], t.calls[i]);
    }
  }

  lemma {:induction false} BeginStep(s: State, l: Label)
    requires CallsOk(s) && PipeOk(s) && Targets(s, l) && l.BeginWrite?
    ensures PipeOk(Step(s, l))
  {
    var t := Step(s, l);
    assert CallFits(s, l.i);
    assert t.order == s.order + [l.i] && t.order[..|s.order|] == s.order;
    forall p | 0 <= p < |t.order| ensures OrderFits(t, p) {
      BeginOrder(s, l, p);
    }
    forall i | 0 <= i < |t.calls| ensures Ordered(t, i) {
      assert Ordered(s, i) && CallFits(s, i);
    }
    FlatSame(s.calls, t.calls, s.order);
  }

  lemma {:induction false} InOrder(s: State, i: nat)
    requires PipeOk(s) && i < |s.calls|
    ensures i in s.order <==> Begun(s.calls[i])
  {
    assert Ordered(s, i);
    if p :| 0 <= p < |s.order| && s.order[p] == i {
      assert OrderFits(s, p);
    }
  }

  lemma {:induction false} BeginOrder(s: State, l: Label, p: nat)
    requires CallsOk(s) && PipeOk(s) && Targets(s, l) && l.BeginWrite? && p <= |s.order|
    ensures OrderFits(Step(s, l), p)
  {
    var t := Step(s, l);
    assert CallFits(s, l.i);
    if p < |s.order| {
      assert OrderFits(s, p);
      assert t.order[..p] == s.order[..p];
    } else {
      assert t.order[..p] == s.order;
      InOrder(s, l.i);
    }
  }

  lemma {:induction false} FlatLast(calls: seq<Call>, order: seq<nat>, i: nat)
    requires order != [] && order[|order| - 1] == i
    ensures Flat(calls, order) == Flat(calls, order[..|order| - 1]) + Part(calls, i)
  {
  }

  /** The last Send to have begun puts k more bytes. */
  lemma {:induction false} FlatGrows(calls: seq<Call>, later: seq<Call>, order: seq<nat>, i: nat, k: nat)
    requires i < |calls| && order != [] && order[|order| - 1] == i && i !in order[..|order| - 1]
    requires calls[i].n + k <= |calls[i].line| && later == calls[i := calls[i].(n := calls[i].n + k)]
    ensures Flat(later, order) == Flat(calls, order) + calls[i].line[calls[i].n..calls[i].n + k]
  {
    var front := order[..|order| - 1];
    FlatSame(calls, later, front);
    FlatLast(calls, order, i);
    FlatLast(later, order, i);
    PartGrows(Flat(calls, front), calls[i].line, calls[i].n, k);
  }

  lemma {:induction false} ChunkFlat(s: State, l: Label)
    requires CallsOk(s) && PipeOk(s) && Targets(s, l) && l.Chunk?
    ensures Flat(Step(s, l).calls, s.order) == Step(s, l).stdin
  {
    assert Ordered(s, l.i);
    OnlyOnce(s);
    TargetCalls(s, l);
    FlatGrows(s.calls, Step(s, l).calls, s.order, l.i, l.k);
  }

  lemma {:induction false} OnlyOnce(s: State)
    requires PipeOk(s) && s.order != []
    ensures s.order[|s.order| - 1] !in s.order[..|s.order| - 1]
  {
    assert OrderFits(s, |s.order| - 1);
  }

  lemma {:induction false} PartGrows(before: seq<Byte>, line: seq<Byte>, n: nat, k: nat)
    requires n + k <= |line|
    ensures before + line[..n + k] == before + line[..n] + line[n..n + k]
  {
  }

  lemma {:induction false} ChunkStep(s: State, l: Label)
    requires CallsOk(s) && PipeOk(s) && Targets(s, l) && l.Chunk?
    ensures PipeOk(Step(s, l))
  {
    var t := Step(s, l);
    ChunkFlat(s, l);
    forall p | 0 <= p < |t.order| ensures OrderFits(t, p) {
      assert OrderFits(s, p);
    }
    forall i | 0 <= i < |t.calls| ensures Ordered(t, i) {
      assert Ordered(s, i);
    }
  }

  lemma {:induction false} StepPipeOk(s: State, l: Label)
    requires CallsOk(s) && PipeOk(s)
    ensures PipeOk(Step(s, l))
  {
    if Targets(s, l) && l.BeginWrite? {
      BeginStep(s, l);
    } else if Targets(s, l) && l.Chunk? {
      ChunkStep(s, l);
    } else {
      if Targets(s, l) {
        QuietCall(s, l);
      }
      SamePipe(s, Step(s, l));
    }
  }

  lemma {:induction false} ReachableOk(ls: seq<Label>)
    ensures CallsOk(Exec(INIT, ls)) && PipeOk(Exec(INIT, ls))
  {
    if ls != [] {
      var front := ls[..|ls| - 1];
      ReachableOk(front);
      StepCallsOk(Exec(INIT, front), ls[|ls| - 1]);
      StepPipeOk(Exec(INIT, front), ls[|ls| - 1]);
    }
  }

  lemma {:induction false} ExecFrom(s: State, ls: seq<Label>, more: seq<Label>)
    ensures Exec(s, ls + more) == Exec(Exec(s, ls), more)
  {
    if more == [] {
      assert ls + more == ls;
    } else {
      ExecFrom(s, ls, more[..|more| - 1]);
      assert (ls + more)[..|ls + more| - 1] == ls + more[..|more| - 1];
    }
  }

  // What the protocol promises.

  /** The pieces one after the other. */
  function Glued(parts: seq<seq<Byte>>): seq<Byte> {
    if parts == [] then [] else Glued(parts[..|parts| - 1]) + parts[|parts| - 1]
  }

  lemma {:induction false} GluedSplit(a: seq<seq<Byte>>, b: seq<seq<Byte>>)
    ensures Glued(a + b) == Glued(a) + Glued(b)
  {
    if b == [] {
      assert a + b == a;
    } else {
      GluedSplit(a, b[..|b| - 1]);
      assert (a + b)[..|a + b| - 1] == a + b[..|b| - 1];
      Associative(Glued(a), Glued(b[..|b| - 1]), b[|b| - 1]);
    }
  }

  function Parts(calls: seq<Call>, order: seq<nat>): (r: seq<seq<Byte>>)
    ensures |r| == |order| && forall p :: 0 <= p < |order| ==> r[p] == Part(calls, order[p])
  {
    seq(|order|, p requires 0 <= p < |order| => Part(calls, order[p]))
  }

  lemma {:induction false} FlatIsGlued(calls: seq<Call>, order: seq<nat>)
    ensures Flat(calls, order) == Glued(Parts(calls, order))
  {
    if order != [] {
      FlatIsGlued(calls, order[..|order| - 1]);
      assert Parts(calls, order)[..|order| - 1] == Parts(calls, order[..|order| - 1]);
    }
  }

  lemma {:induction false} PartsConcat(calls: seq<Call>, a: seq<nat>, b: seq<nat>)
    ensures Parts(calls, a + b) == Parts(calls, a) + Parts(calls, b)
  {
  }

  lemma {:induction false} FlatSplit(calls: seq<Call>, a: seq<nat>, b: seq<nat>)
    ensures Flat(calls, a + b) == Flat(calls, a) + Flat(calls, b)
  {
    FlatIsGlued(calls, a);
    FlatIsGlued(calls, b);
    FlatIsGlued(calls, a + b);
    PartsConcat(calls, a, b);
    GluedSplit(Parts(calls, a), Parts(calls, b));
  }

  /** Everything on the pipe is what the Sends put there, each once and in one piece. */
  lemma {:induction false} OnePiece(s: State, p: nat)
    requires PipeOk(s) && p < |s.order|
    ensures s.stdin == Flat(s.calls, s.order[..p]) + Part(s.calls, s.order[p]) + Flat(s.calls, s.order[p + 1..])
    ensures s.order[p] !in s.order[..p] && s.order[p] !in s.order[p + 1..]
  {
    var i := s.order[p];
    FlatSplit(s.calls, s.order[..p + 1], s.order[p + 1..]);
    assert s.order == s.order[..p + 1] + s.order[p + 1..] && s.order[..p + 1][..p] == s.order[..p];
    assert OrderFits(s, p);
    forall q | p + 1 <= q < |s.order| ensures s.order[q] != i {
      assert OrderFits(s, q);
      assert s.order[p] in s.order[..q];
    }
  }

  /** The i-th Send's whole line is on the pipe, between what those before it and those after it put there. */
  predicate InOnePiece(s: State, i: nat, p: nat)
    requires i < |s.calls| && p < |s.order|
  {
    && s.order[p] == i && i !in s.order[..p] && i !in s.order[p + 1..]
    && s.stdin == Flat(s.calls, s.order[..p]) + s.calls[i].line + Flat(s.calls, s.order[p + 1..])
  }

  lemma {:induction false} WholePart(calls: seq<Call>, i: nat)
    requires i < |calls| && calls[i].n == |calls[i].line|
    ensures Part(calls, i) == calls[i].line
  {
  }

  /** A Send that returned nil has its whole line on the pipe, in one piece and once, whatever the others
      did before or do later. */
  lemma {:induction false} NilMeansWhole(ls: seq<Label>, i: nat)
    requires i < |Exec(INIT, ls).calls| && Exec(INIT, ls).calls[i].caller == Returned(Nil)
    ensures var s := Exec(INIT, ls);
      exists p :: 0 <= p < |s.order| && InOnePiece(s, i, p)
  {
    var s := Exec(INIT, ls);
    ReachableOk(ls);
    assert CallFits(s, i) && Ordered(s, i);
    var p :| 0 <= p < |s.order| && s.order[p] == i;
    OnePiece(s, p);
    WholePart(s.calls, i);
    assert InOnePiece(s, i, p);
  }

  lemma {:induction false} LocalSilent(s: State, l: Label, x: Call)
    requires PhaseFits(x) && Silent(x) && (x.caller == Checked ==> x.go == NotStarted)
    ensures Local(x, l, s).Some? ==> Silent(Local(x, l, s).value)
  {
  }

  lemma {:induction false} StepSilent(s: State, l: Label, i: nat)
    requires i < |s.calls| && CallFits(s, i) && Silent(s.calls[i])
    ensures i < |Step(s, l).calls| && Silent(Step(s, l).calls[i])
  {
    StepOwn(s, l, i);
    LocalSilent(s, l, s.calls[i]);
  }

  lemma {:induction false} ExecSilent(s: State, more: seq<Label>, i: nat)
    requires CallsOk(s) && i < |s.calls| && Silent(s.calls[i])
    ensures CallsOk(Exec(s, more)) && i < |Exec(s, more).calls| && Silent(Exec(s, more).calls[i])
  {
    if more != [] {
      var front := more[..|more| - 1];
      ExecSilent(s, front, i);
      StepCallsOk(Exec(s, front), more[|more| - 1]);
      assert CallFits(Exec(s, front), i);
      StepSilent(Exec(s, front), more[|more| - 1], i);
    }
  }

  /** A Send that returned its context's error before it wrote, or stopped at zero bytes, puts no byte on the
      pipe, then or ever, whoever has closed stdin since. */
  lemma {:induction false} CancelledNeverWrites(ls: seq<Label>, more: seq<Label>, i: nat)
    requires i < |Exec(INIT, ls).calls| && Exec(INIT, ls).calls[i].caller == Returned(CtxErr)
    requires var x := Exec(INIT, ls).calls[i];
      x.phase == Abandoned || x.go == NotStarted || (Written(x) && x.n == 0) || !Exec(INIT, ls).stdinClosed
    ensures i < |Exec(INIT, ls + more).calls| && Exec(INIT, ls + more).calls[i].n == 0
  {
    var s := Exec(INIT, ls);
    ReachableOk(ls);
    assert CallFits(s, i);
    ExecSilent(s, more, i);
    ExecFrom(INIT, ls, more);
  }

  /** The lines that are on the pipe whole, in the order they were written. */
  function WholeLines(calls: seq<Call>, order: seq<nat>): seq<seq<Byte>> {
    if order == [] then []
    else
      var i := order[|order| - 1];
      WholeLines(calls, order[..|order| - 1])
        + if i < |calls| && calls[i].n == |calls[i].line| then [calls[i].line] else []
  }

  /** What the Send now in Write has put there of a line not yet whole. */
  function InProgress(s: State): seq<Byte> {
    if s.holder.Some? && s.holder.value < |s.calls| && s.calls[s.holder.value].go == InWrite
        && s.calls[s.holder.value].n < |s.calls[s.holder.value].line|
    then Part(s.calls, s.holder.value) else []
  }

  predicate Uncut(x: Call) {
    Written(x) ==> x.n == 0 || x.n == |x.line|
  }

  lemma {:induction false} GluedEnd(lines: seq<seq<Byte>>, line: seq<Byte>)
    ensures Glued(lines + [line]) == Glued(lines) + line
  {
    assert (lines + [line])[..|lines|] == lines;
  }

  lemma {:induction false} FlatIsWhole(calls: seq<Call>, order: seq<nat>)
    requires forall i :: i in order ==> i < |calls| && (calls[i].n == 0 || calls[i].n == |calls[i].line|)
    ensures Flat(calls, order) == Glued(WholeLines(calls, order))
  {
    if order != [] {
      var i, front := order[|order| - 1], order[..|order| - 1];
      assert forall j :: j in front || j == i ==> j in order;
      FlatIsWhole(calls, front);
      if calls[i].n == |calls[i].line| {
        GluedEnd(WholeLines(calls, front), calls[i].line);
        assert Part(calls, i) == calls[i].line;
      } else {
        assert Part(calls, i) == [];
        assert WholeLines(calls, order) == WholeLines(calls, front);
      }
    }
  }

  lemma {:induction false} WrittenBefore(s: State, p: nat)
    requires CallsOk(s) && PipeOk(s) && p < |s.order| && s.order[p] < |s.calls|
      && (p < |s.order| - 1 || s.calls[s.order[p]].go != InWrite)
    requires forall i :: 0 <= i < |s.calls| ==> Uncut(s.calls[i])
    ensures var i := s.order[p]; i < |s.calls| && (s.calls[i].n == 0 || s.calls[i].n == |s.calls[i].line|)
  {
    var i := s.order[p];
    OnePiece(s, p);
    assert OrderFits(s, p);
    assert Ordered(s, i) && Uncut(s.calls[i]);
    if p < |s.order| - 1 {
      assert s.order[|s.order| - 1] in s.order[p + 1..];
    }
  }

  /** Until some write is cut off part-way, the pipe carries whole lines and then at most a first part of
      the line being written. */
  lemma {:induction false} WholeLinesUntilCut(ls: seq<Label>)
    requires forall i :: 0 <= i < |Exec(INIT, ls).calls| ==> Uncut(Exec(INIT, ls).calls[i])
    ensures var s := Exec(INIT, ls); s.stdin == Glued(WholeLines(s.calls, s.order)) + InProgress(s)
  {
    var s := Exec(INIT, ls);
    ReachableOk(ls);
    WholeThenPart(s);
  }

  lemma {:induction false} WholeThenPart(s: State)
    requires CallsOk(s) && PipeOk(s) && forall i :: 0 <= i < |s.calls| ==> Uncut(s.calls[i])
    ensures s.stdin == Glued(WholeLines(s.calls, s.order)) + InProgress(s)
  {
    if s.holder.Some? && s.calls[s.holder.value].go == InWrite
        && s.calls[s.holder.value].n < |s.calls[s.holder.value].line| {
      OneInProgress(s);
    } else {
      if s.holder.Some? {
        assert CallFits(s, s.holder.value);
      }
      forall i | i in s.order ensures i < |s.calls| && (s.calls[i].n == 0 || s.calls[i].n == |s.calls[i].line|) {
        var p :| 0 <= p < |s.order| && s.order[p] == i;
        NoneInProgress(s, p);
      }
      FlatIsWhole(s.calls, s.order);
    }
  }

  lemma {:induction false} OneInProgress(s: State)
    requires CallsOk(s) && PipeOk(s) && forall i :: 0 <= i < |s.calls| ==> Uncut(s.calls[i])
    requires s.holder.Some? && s.calls[s.holder.value].go == InWrite
      && s.calls[s.holder.value].n < |s.calls[s.holder.value].line|
    ensures s.stdin == Glued(WholeLines(s.calls, s.order)) + InProgress(s)
  {
    assert Ordered(s, s.holder.value);
    var front := s.order[..|s.order| - 1];
    forall i | i in front ensures i < |s.calls| && (s.calls[i].n == 0 || s.calls[i].n == |s.calls[i].line|) {
      var p :| 0 <= p < |front| && front[p] == i;
      assert OrderFits(s, p);
      WrittenBefore(s, p);
    }
    FlatIsWhole(s.calls, front);
    assert WholeLines(s.calls, s.order) == WholeLines(s.calls, front);
  }

  lemma {:induction false} NoneInProgress(s: State, p: nat)
    requires CallsOk(s) && PipeOk(s) && p < |s.order| && InProgress(s) == []
    requires s.holder.Some? ==>
      s.calls[s.holder.value].go != InWrite || s.calls[s.holder.value].n == |s.calls[s.holder.value].line|
        || s.calls[s.holder.value].n == 0
    requires forall i :: 0 <= i < |s.calls| ==> Uncut(s.calls[i])
    ensures var i := s.order[p]; i < |s.calls| && (s.calls[i].n == 0 || s.calls[i].n == |s.calls[i].line|)
  {
    var i := s.order[p];
    assert OrderFits(s, p);
    assert CallFits(s, i) && Uncut(s.calls[i]);
  }

  /** A write deadline is in force only for a Send whose own caller set it: it is clear when the next Send
      takes the lock, and only a Send's own cancel ever cuts its write off. */
  lemma {:induction false} OnlyOwnCancelCuts(ls: seq<Label>, i: nat)
    requires i < |Exec(INIT, ls).calls|
    ensures var s := Exec(INIT, ls);
      && (s.deadline && Holds(s.calls[i].go) ==> s.calls[i].caller == Awaiting && s.calls[i].ctxDone)
      && (s.calls[i].go == Locked || s.calls[i].go == Cleared || s.calls[i].go == Sent ==> !s.deadline)
      && (Written(s.calls[i]) && s.calls[i].err == DeadlineExceeded ==> s.calls[i].ctxDone)
  {
    var s := Exec(INIT, ls);
    ReachableOk(ls);
    assert CallFits(s, i);
  }

  // Why a Send came back as it did, and who closes stdin.

  /** The Send was cancelled in its write and its deadline could not be set. */
  predicate DeadlineFailed(ls: seq<Label>, i: nat) {
    ls != [] && (DeadlineFailed(ls[..|ls| - 1], i) || FailsDeadline(Exec(INIT, ls[..|ls| - 1]), ls[|ls| - 1], i))
  }

  predicate FailsDeadline(s: State, l: Label, i: nat) {
    l == Label.Cancel(i, true) && i < |s.calls| && s.calls[i].caller == Cancelling && s.calls[i].phase == Writing
  }

  /** The write finished before the cancel took effect. */
  predicate WholeWrite(x: Call) {
    Written(x) && x.err == NoErr && x.n == |x.line|
  }

  /** The deadline stopped it before a byte was on the pipe. */
  predicate NoWrite(x: Call) {
    Written(x) && x.err == DeadlineExceeded && x.n == 0
  }

  /** It may have left a part of its line on the pipe. */
  predicate MayCut(x: Call, deadlineFailed: bool) {
    deadlineFailed || (Written(x) && !WholeWrite(x) && !NoWrite(x))
  }

  predicate CallerWhy(x: Call, deadlineFailed: bool) {
    && (x.caller == Closing ==> MayCut(x, deadlineFailed))
    && (x.caller == Returned(CtxErr) ==>
          x.phase == Abandoned || x.go == NotStarted || deadlineFailed || (Written(x) && !WholeWrite(x)))
    && (x.caller == Returned(Nil) ==> WholeWrite(x))
    && (x.caller == Returned(Failed) ==> Written(x) && x.err != NoErr)
  }

  /** Nothing about a write that is over changes. */
  lemma {:induction false} LocalOver(s: State, l: Label, x: Call)
    requires PhaseFits(x) && Written(x) && (x.caller == Checked ==> x.go == NotStarted) && Local(x, l, s).Some?
    ensures var y := Local(x, l, s).value; Written(y) && y.err == x.err && y.n == x.n && y.line == x.line
  {
  }

  lemma {:induction false} CallerWhyTakes(s: State, l: Label, x: Call, f: bool)
    requires PhaseFits(x) && WriteFits(x) && CallerWhy(x, f) && Local(x, l, s).Some?
    requires x.phase == Abandoned ==> x.caller == Returned(CtxErr)
    requires l.TakeResult? || l.TakeLate? || l.CloseStdin?
    ensures CallerWhy(Local(x, l, s).value, f)
  {
  }

  lemma {:induction false} CallerWhyCancels(s: State, l: Label, x: Call, f: bool)
    requires PhaseFits(x) && CallerWhy(x, f) && Local(x, l, s).Some? && (l.Cancel? || l.CheckCtx? || l.CheckDone?)
    requires x.caller == Entered || x.caller == Checked ==> x.go == NotStarted
    ensures CallerWhy(Local(x, l, s).value, f || (l.Cancel? && l.deadlineFails && x.phase == Writing))
  {
  }

  lemma {:induction false} CallerWhyRest(s: State, l: Label, x: Call, f: bool)
    requires PhaseFits(x) && CallerWhy(x, f) && Local(x, l, s).Some?
    requires x.caller == Entered || x.caller == Checked ==> x.go == NotStarted
    requires !l.TakeResult? && !l.TakeLate? && !l.CloseStdin? && !l.Cancel? && !l.CheckCtx? && !l.CheckDone?
    ensures CallerWhy(Local(x, l, s).value, f)
  {
  }

  lemma {:induction false} StepWhy(s: State, l: Label, i: nat, f: bool)
    requires i < |s.calls| && CallFits(s, i) && CallerWhy(s.calls[i], f)
    ensures i < |Step(s, l).calls| && CallerWhy(Step(s, l).calls[i], f || FailsDeadline(s, l, i))
  {
    StepOwn(s, l, i);
    if Targets(s, l) && l.i == i {
      if l.TakeResult? || l.TakeLate? || l.CloseStdin? {
        CallerWhyTakes(s, l, s.calls[i], f);
      } else if l.Cancel? || l.CheckCtx? || l.CheckDone? {
        CallerWhyCancels(s, l, s.calls[i], f);
      } else {
        CallerWhyRest(s, l, s.calls[i], f);
      }
    }
  }

  lemma {:induction false} NewOnly(s: State, l: Label, i: nat)
    requires |s.calls| <= i < |Step(s, l).calls|
    ensures l.Enter? && Step(s, l).calls[i] == NewCall(l.data)
  {
    if Targets(s, l) {
      TargetCalls(s, l);
    } else {
      IdleCalls(s, l);
    }
  }

  /** Over every run, why a Send came back: nil for a line written whole without error; an error of the write for a
      write that failed; and its context's error only if it was stopped before it started or wrote, its deadline could
      not be set, or its write failed. */
  lemma {:induction false} Outcomes(ls: seq<Label>, i: nat)
    requires i < |Exec(INIT, ls).calls|
    ensures CallerWhy(Exec(INIT, ls).calls[i], DeadlineFailed(ls, i))
  {
    var front, l := ls[..|ls| - 1], ls[|ls| - 1];
    var s := Exec(INIT, front);
    if i < |s.calls| {
      Outcomes(front, i);
      ReachableOk(front);
      assert CallFits(s, i);
      StepWhy(s, l, i, DeadlineFailed(front, i));
    } else {
      NewOnly(s, l, i);
    }
  }

  lemma {:induction false} WholeFits(s: State, i: nat, f: bool)
    requires CallsOk(s) && i < |s.calls| && CallerWhy(s.calls[i], f) && WholeWrite(s.calls[i])
    ensures s.calls[i].caller.Returned? ==>
      match s.calls[i].caller.ret
      case Nil => true
      case ClosedPipe => s.done
      case CtxErr => f
      case Failed => false
  {
    assert CallFits(s, i);
  }

  /** So a Send whose line was written whole comes back nil, unless the transport was closed or its deadline could not
      be set. */
  lemma {:induction false} WholeMeansNil(ls: seq<Label>, i: nat)
    requires i < |Exec(INIT, ls).calls| && WholeWrite(Exec(INIT, ls).calls[i])
    ensures var s := Exec(INIT, ls);
      s.calls[i].caller.Returned? ==>
        match s.calls[i].caller.ret
        case Nil => true
        case ClosedPipe => s.done
        case CtxErr => DeadlineFailed(ls, i)
        case Failed => false
  {
    Outcomes(ls, i);
    ReachableOk(ls);
    WholeFits(Exec(INIT, ls), i, DeadlineFailed(ls, i));
  }

  /** The Send has come back and had to close stdin: it may have cut its line. */
  predicate Closer(s: State, ls: seq<Label>, i: nat) {
    i < |s.calls| && s.calls[i].caller == Returned(CtxErr) && MayCut(s.calls[i], DeadlineFailed(ls, i))
  }

  lemma {:induction false} CloserStays(ls: seq<Label>, l: Label, i: nat)
    requires CallsOk(Exec(INIT, ls)) && Closer(Exec(INIT, ls), ls, i)
    ensures Closer(Step(Exec(INIT, ls), l), ls + [l], i)
  {
    var s := Exec(INIT, ls);
    assert (ls + [l])[..|ls|] == ls;
    assert CallFits(s, i);
    StepOwn(s, l, i);
    if Targets(s, l) && l.i == i {
      LocalCut(s, l, s.calls[i], DeadlineFailed(ls, i));
    }
  }

  lemma {:induction false} LocalCut(s: State, l: Label, x: Call, f: bool)
    requires PhaseFits(x) && x.caller == Returned(CtxErr) && MayCut(x, f) && Local(x, l, s).Some?
    ensures var y := Local(x, l, s).value; y.caller == Returned(CtxErr) && MayCut(y, f)
  {
    if Written(x) {
      LocalOver(s, l, x);
    }
  }

  lemma {:induction false} ClosesAs(ls: seq<Label>, l: Label)
    requires CallsOk(Exec(INIT, ls))
    requires var s := Exec(INIT, ls); !s.stdinClosed && Step(s, l).stdinClosed && !Step(s, l).done
    ensures l.CloseStdin? && Closer(Step(Exec(INIT, ls), l), ls + [l], l.i)
  {
    var s := Exec(INIT, ls);
    assert (ls + [l])[..|ls|] == ls;
    Outcomes(ls, l.i);
    TargetCalls(s, l);
    assert s.calls[l.i].caller == Closing;
  }

  /** Over every run, who closes stdin: the transport, or a Send that came back with its context's error after its
      deadline could not be set or its write returned neither whole nor stopped at zero bytes. */
  lemma {:induction false} WhoCloses(ls: seq<Label>) returns (i: nat)
    ensures var s := Exec(INIT, ls); s.stdinClosed && !s.done ==> Closer(s, ls, i)
  {
    i := 0;
    var s := Exec(INIT, ls);
    if s.stdinClosed && !s.done {
      var front, l := ls[..|ls| - 1], ls[|ls| - 1];
      FrontLast(ls);
      ReachableOk(front);
      StaysClosed(Exec(INIT, front), l);
      if Exec(INIT, front).stdinClosed {
        i := WhoCloses(front);
        CloserStays(front, l, i);
      } else {
        ClosesAs(front, l);
        i := l.i;
      }
    }
  }

  /** What becomes of a cancelled Send whose write is over. */
  predicate LateFits(x: Call, y: Call, stdinClosed: bool) {
    && Written(y) && y.n == x.n && y.err == x.err && y.line == x.line
    && (y.caller == Awaiting
        || (if WholeWrite(y) then y.caller == Returned(Nil)
            else if NoWrite(y) then y.caller == Returned(CtxErr)
            else y.caller == Closing || (y.caller == Returned(CtxErr) && stdinClosed)))
  }

  lemma {:induction false} LocalLate(s: State, l: Label, x: Call, y: Call)
    requires PhaseFits(y) && WriteFits(y) && LateFits(x, y, s.stdinClosed) && Local(y, l, s).Some?
    ensures LateFits(x, Local(y, l, s).value, s.stdinClosed || l.CloseStdin?)
  {
    LocalOver(s, l, y);
  }

  lemma {:induction false} StepLate(s: State, l: Label, x: Call, i: nat)
    requires i < |s.calls| && CallFits(s, i) && LateFits(x, s.calls[i], s.stdinClosed)
    ensures i < |Step(s, l).calls| && LateFits(x, Step(s, l).calls[i], Step(s, l).stdinClosed)
  {
    StepOwn(s, l, i);
    StaysClosed(s, l);
    if Targets(s, l) && l.i == i {
      LocalLate(s, l, x, s.calls[i]);
    }
  }

  /** In every continuation that brings back a cancelled Send whose write is over: it comes back nil if the line was
      written whole without error; with its context's error, never to close stdin, if the deadline stopped it at zero
      bytes; and otherwise with its context's error and stdin closed. */
  lemma {:induction false} LateReturns(s: State, more: seq<Label>, i: nat)
    requires CallsOk(s) && i < |s.calls| && s.calls[i].caller == Awaiting && Written(s.calls[i])
    ensures var t := Exec(s, more); CallsOk(t) && i < |t.calls| && LateFits(s.calls[i], t.calls[i], t.stdinClosed)
  {
    if more != [] {
      var front, l := more[..|more| - 1], more[|more| - 1];
      LateReturns(s, front, i);
      StepCallsOk(Exec(s, front), l);
      assert CallFits(Exec(s, front), i);
      StepLate(Exec(s, front), l, s.calls[i], i);
    }
  }

  // How long a Send takes once its context has ended.

  /** What the Send can do by itself once its context has ended. */
  function NextOwn(x: Call, i: nat): Label {
    match x.caller
    case Entered => CheckCtx(i)
    case Checked => CheckDone(i)
    case Selecting => SeeCtx(i)
    case Cancelling => Label.Cancel(i, false)
    case Closing => CloseStdin(i)
    case _ => NextOfWrite(x.go, i)
  }

  /** What it does for the write it awaits. */
  function NextOfWrite(g: Goroutine, i: nat): Label {
    match g
    case Ready => BeginWrite(i)
    case InWrite => WriteReturns(i, DeadlineExceeded)
    case Wrote => MarkFinished(i)
    case Marked => ClearDeadline(i)
    case Cleared => SendResult(i)
    case _ => TakeLate(i)
  }

  function OwnStepsLeft(x: Call): (r: nat)
    ensures 1 <= r <= 10
  {
    match x.caller
    case Entered => 1
    case Checked => 10
    case Selecting => 9
    case Cancelling => 8
    case Closing => 1
    case _ => WriteStepsLeft(x.go)
  }

  function WriteStepsLeft(g: Goroutine): (r: nat)
    ensures 2 <= r <= 7
  {
    match g
    case Ready => 7
    case InWrite => 6
    case Wrote => 5
    case Marked => 4
    case Cleared => 3
    case _ => 2
  }

  /** Its context has ended and it is not yet back. */
  predicate Leaving(x: Call) {
    x.ctxDone && !x.caller.Returned?
  }

  lemma {:induction false} OwnLocal(s: State, x: Call, i: nat)
    requires Leaving(x) && PhaseFits(x) && (x.caller == Awaiting ==> x.phase == Writing || x.phase == Finished)
    requires x.caller == Awaiting && x.go == InWrite ==> s.deadline
    ensures var y := Local(x, NextOwn(x, i), s);
      y.Some? && (y.value.caller.Returned? || (Leaving(y.value) && OwnStepsLeft(y.value) < OwnStepsLeft(x)))
  {
  }

  lemma {:induction false} OwnStep(s: State, i: nat)
    requires CallsOk(s) && i < |s.calls| && Leaving(s.calls[i])
    ensures var t := Step(s, NextOwn(s.calls[i], i));
      && i < |t.calls|
      && (t.calls[i].caller.Returned? || (Leaving(t.calls[i]) && OwnStepsLeft(t.calls[i]) < OwnStepsLeft(s.calls[i])))
  {
    assert CallFits(s, i);
    OwnLocal(s, s.calls[i], i);
    StepOwn(s, NextOwn(s.calls[i], i), i);
  }

  /** What any step, its own or another's, does to a Send that is leaving. */
  predicate LeavesOn(x: Call, y: Call, own: bool) {
    y.caller.Returned? || (Leaving(y) && OwnStepsLeft(y) + (if own then 1 else 0) <= OwnStepsLeft(x))
  }

  lemma {:induction false} AnyLocal(s: State, l: Label, x: Call)
    requires Leaving(x) && PhaseFits(x) && (x.caller == Awaiting ==> x.phase == Writing || x.phase == Finished)
    ensures Local(x, l, s).Some? ==> LeavesOn(x, Local(x, l, s).value, false)
  {
  }

  lemma {:induction false} AnyStep(s: State, l: Label, i: nat)
    requires CallsOk(s) && i < |s.calls| && Leaving(s.calls[i])
    ensures i < |Step(s, l).calls| && LeavesOn(s.calls[i], Step(s, l).calls[i], l == NextOwn(s.calls[i], i))
  {
    assert CallFits(s, i);
    StepOwn(s, l, i);
    if l == NextOwn(s.calls[i], i) {
      OwnStep(s, i);
    } else {
      AnyLocal(s, l, s.calls[i]);
    }
  }

  /** How often the Send is given its next step, among whatever else runs. */
  function OwnTurns(s: State, ls: seq<Label>, i: nat): nat {
    if ls == [] then 0
    else
      var calls := Exec(s, ls[..|ls| - 1]).calls;
      OwnTurns(s, ls[..|ls| - 1], i) + if i < |calls| && ls[|ls| - 1] == NextOwn(calls[i], i) then 1 else 0
  }

  lemma {:induction false} ReturnedStays(s: State, l: Label, i: nat)
    requires i < |s.calls| && s.calls[i].caller.Returned?
    ensures i < |Step(s, l).calls| && Step(s, l).calls[i].caller.Returned?
  {
    StepOwn(s, l, i);
  }

  /** The Send's next step is one it can take now. */
  predicate CanStep(s: State, i: nat)
    requires i < |s.calls|
  {
    Targets(s, NextOwn(s.calls[i], i))
  }

  lemma {:induction false} OwnCanStep(s: State, i: nat)
    requires CallsOk(s) && i < |s.calls| && Leaving(s.calls[i])
    ensures CanStep(s, i)
  {
    assert CallFits(s, i);
    OwnLocal(s, s.calls[i], i);
  }

  /** A Send whose context has ended, wherever it is, is never kept waiting by anyone else: among any steps of the
      others it always has a step of its own that it can take, none of theirs sets it back, and ten turns at most
      bring it home. */
  lemma {:induction false} CancelFinishes(s: State, ls: seq<Label>, i: nat)
    requires CallsOk(s) && i < |s.calls| && Leaving(s.calls[i])
    ensures var t := Exec(s, ls);
      && CallsOk(t) && i < |t.calls|
      && (t.calls[i].caller.Returned?
          || (Leaving(t.calls[i]) && CanStep(t, i)
             && OwnStepsLeft(t.calls[i]) + OwnTurns(s, ls, i) <= OwnStepsLeft(s.calls[i])))
    ensures OwnTurns(s, ls, i) >= 10 ==> Exec(s, ls).calls[i].caller.Returned?
  {
    if ls == [] {
      OwnCanStep(s, i);
    } else {
      var front, l := ls[..|ls| - 1], ls[|ls| - 1];
      var t := Exec(s, front);
      CancelFinishes(s, front, i);
      StepCallsOk(t, l);
      if t.calls[i].caller.Returned? {
        ReturnedStays(t, l, i);
      } else {
        AnyStep(t, l, i);
        if Leaving(Step(t, l).calls[i]) {
          OwnCanStep(Step(t, l), i);
        }
      }
    }
  }

  /** From k on no Send writes: stdin is closed, or done is so that none of them starts. */
  predicate Shut(s: State, k: nat, j: nat)
    requires j < |s.calls|
  {
    j >= k ==>
      s.calls[j].n == 0
        && (if s.stdinClosed then s.calls[j].go == InWrite ==> !s.calls[j].open else s.calls[j].go == NotStarted)
  }

  ghost predicate AllShut(s: State, k: nat) {
    && (s.stdinClosed || s.done) && k <= |s.calls|
    && forall j {:trigger Shut(s, k, j)} :: 0 <= j < |s.calls| ==> Shut(s, k, j)
  }

  lemma {:induction false} StepShut(s: State, l: Label, k: nat)
    requires AllShut(s, k)
    ensures AllShut(Step(s, l), k)
  {
    var t := Step(s, l);
    forall j | 0 <= j < |t.calls| ensures Shut(t, k, j) {
      if j < |s.calls| {
        assert Shut(s, k, j);
        ShutStays(s, l, k, j);
      } else {
        IdleCalls(s, l);
      }
    }
  }

  lemma {:induction false} LocalShut(s: State, l: Label, x: Call)
    requires s.stdinClosed || s.done
    requires x.n == 0 && (if s.stdinClosed then x.go == InWrite ==> !x.open else x.go == NotStarted)
    ensures var y := Local(x, l, s);
      y.Some? ==>
        y.value.n == 0 && (if s.stdinClosed then y.value.go == InWrite ==> !y.value.open else y.value.go == NotStarted)
  {
  }

  lemma {:induction false} ShutStays(s: State, l: Label, k: nat, j: nat)
    requires (s.stdinClosed || s.done) && j < |s.calls| && Shut(s, k, j)
    ensures j < |Step(s, l).calls| && Shut(Step(s, l), k, j)
  {
    StepOwn(s, l, j);
    StaysClosed(s, l);
    if j >= k {
      LocalShut(s, l, s.calls[j]);
    }
  }

  lemma {:induction false} StaysClosed(s: State, l: Label)
    ensures (s.stdinClosed ==> Step(s, l).stdinClosed) && (s.done ==> Step(s, l).done)
  {
  }

  lemma {:induction false} ExecShut(s: State, more: seq<Label>, k: nat)
    requires AllShut(s, k)
    ensures AllShut(Exec(s, more), k)
  {
    if more != [] {
      ExecShut(s, more[..|more| - 1], k);
      StepShut(Exec(s, more[..|more| - 1]), more[|more| - 1], k);
    }
  }

  /** No Send that starts from here on ever adds a byte. */
  ghost predicate LaterQuiet(s: State) {
    forall more, j :: |s.calls| <= j < |Exec(s, more).calls| ==> Exec(s, more).calls[j].n == 0
  }

  lemma {:induction false} ShutIsQuiet(s: State)
    requires s.stdinClosed || s.done
    ensures LaterQuiet(s)
  {
    forall m | 0 <= m < |s.calls| ensures Shut(s, |s.calls|, m) {
    }
    forall more, j | |s.calls| <= j < |Exec(s, more).calls| ensures Exec(s, more).calls[j].n == 0 {
      ExecShut(s, more, |s.calls|);
      assert Shut(Exec(s, more), |s.calls|, j);
    }
  }

  // Runs of one Send's steps, two at a time.

  lemma {:induction false} ExecTwo(s: State, a: Label, b: Label)
    ensures Exec(s, [a, b]) == Step(Step(s, a), b)
  {
    assert [a, b][..1] == [a] && [a][..0] == [];
    assert Exec(s, [a]) == Step(Exec(s, []), a);
  }

  function With(s: State, i: nat, x: Call): State
    requires i < |s.calls|
  {
    s.(calls := s.calls[i := x])
  }

  /** A Send that finds the transport open queues for the lock. */
  lemma {:induction false} Queues(s: State, i: nat)
    requires i < |s.calls| && WithinLine(s.calls[i]) && s.calls[i].caller == Entered && !s.calls[i].ctxDone && !s.done
    ensures Exec(s, [CheckCtx(i), CheckDone(i)]) == With(s, i, s.calls[i].(caller := Selecting, go := Queued))
  {
    ExecTwo(s, CheckCtx(i), CheckDone(i));
    assert Step(s, CheckCtx(i)) == With(s, i, s.calls[i].(caller := Checked));
  }

  /** It takes the free lock. */
  lemma {:induction false} Locks(s: State, i: nat)
    requires i < |s.calls| && WithinLine(s.calls[i]) && s.calls[i].go == Queued && s.calls[i].phase != Abandoned
      && s.holder == None
    ensures Exec(s, [Lock(i), CheckPhase(i)])
      == With(s, i, s.calls[i].(phase := Writing, go := Ready)).(holder := Some(i))
  {
    ExecTwo(s, Lock(i), CheckPhase(i));
    assert Step(s, Lock(i)) == With(s, i, s.calls[i].(go := Locked)).(holder := Some(i));
  }

  lemma {:induction false} Begins(s: State, i: nat)
    requires i < |s.calls| && WithinLine(s.calls[i]) && s.calls[i].go == Ready && !s.stdinClosed
    ensures Step(s, BeginWrite(i)) == With(s, i, s.calls[i].(go := InWrite, open := true)).(order := s.order + [i])
  {
  }

  lemma {:induction false} Chunks(s: State, i: nat, k: nat)
    requires i < |s.calls| && s.calls[i].go == InWrite && s.calls[i].open && s.calls[i].n == 0
      && 0 < k <= |s.calls[i].line|
    ensures Step(s, Chunk(i, k)) == With(s, i, s.calls[i].(n := k)).(stdin := s.stdin + s.calls[i].line[..k])
  {
  }

  /** It writes, to a stdin that is open, the first k bytes of its line. */
  lemma {:induction false} Writes(s: State, i: nat, k: nat)
    requires i < |s.calls| && s.calls[i].go == Ready && s.calls[i].n == 0 && 0 < k <= |s.calls[i].line|
      && !s.stdinClosed
    ensures Exec(s, [BeginWrite(i), Chunk(i, k)])
      == With(s, i, s.calls[i].(go := InWrite, open := true, n := k))
           .(order := s.order + [i], stdin := s.stdin + s.calls[i].line[..k])
  {
    var began := With(s, i, s.calls[i].(go := InWrite, open := true)).(order := s.order + [i]);
    ExecTwo(s, BeginWrite(i), Chunk(i, k));
    Begins(s, i);
    Chunks(began, i, k);
    assert began.calls[i := began.calls[i].(n := k)] == s.calls[i := s.calls[i].(go := InWrite, open := true, n := k)];
  }

  // A Send that starts later, while nothing is shut.

  /** The step that takes the holder of the lock towards releasing it. */
  function Onward(x: Call, h: nat): Label {
    match x.go
    case Locked => CheckPhase(h)
    case Ready => BeginWrite(h)
    case InWrite => WriteReturns(h, OtherErr)
    case Wrote => MarkFinished(h)
    case Marked => ClearDeadline(h)
    case Cleared => SendResult(h)
    case _ => Unlock(h)
  }

  function StepsToUnlock(g: Goroutine): nat {
    match g
    case Locked => 7
    case Ready => 6
    case InWrite => 5
    case Wrote => 4
    case Marked => 3
    case Cleared => 2
    case _ => 1
  }

  /** Nothing is shut, and no Send has been added. */
  predicate SameDoors(s: State, t: State) {
    t.done == s.done && t.stdinClosed == s.stdinClosed && |t.calls| == |s.calls|
  }

  lemma {:induction false} OnwardLocal(s: State, x: Call, h: nat)
    requires Holds(x.go)
    ensures var y := Local(x, Onward(x, h), s);
      y.Some?
        && (if x.go == Sent then y.value.go == Exited
           else Holds(y.value.go) && StepsToUnlock(y.value.go) < StepsToUnlock(x.go))
  {
  }

  lemma {:induction false} OnwardShared(s: State, x: Call, h: nat)
    requires WithinLine(x) && s.holder == Some(h)
    ensures var t := Shared(s, Onward(x, h), x);
      && t.done == s.done && t.stdinClosed == s.stdinClosed
      && t.holder == if Onward(x, h) == Unlock(h) then None else s.holder
  {
  }

  lemma {:induction false} OnwardStep(s: State, h: nat)
    requires CallsOk(s) && s.holder == Some(h) && h < |s.calls|
    ensures var t := Step(s, Onward(s.calls[h], h));
      && SameDoors(s, t)
      && (t.holder == None || (t.holder == Some(h) && StepsToUnlock(t.calls[h].go) < StepsToUnlock(s.calls[h].go)))
  {
    var l := Onward(s.calls[h], h);
    assert CallFits(s, h);
    OnwardLocal(s, s.calls[h], h);
    OnwardShared(s, s.calls[h], h);
    TargetCalls(s, l);
  }

  lemma {:induction false} ExecCons(s: State, l: Label, rest: seq<Label>)
    ensures Exec(s, [l] + rest) == Exec(Step(s, l), rest)
  {
    ExecFrom(s, [l], rest);
    assert [l][..0] == [];
    assert Exec(s, [l]) == Step(Exec(s, []), l);
  }

  /** The lock comes free, with nothing shut. */
  lemma {:induction false} ComesFree(s: State) returns (more: seq<Label>)
    requires CallsOk(s)
    ensures CallsOk(Exec(s, more)) && SameDoors(s, Exec(s, more)) && Exec(s, more).holder == None
    decreases if s.holder.Some? && s.holder.value < |s.calls| then StepsToUnlock(s.calls[s.holder.value].go) else 0
  {
    more := [];
    if s.holder.Some? {
      var h := s.holder.value;
      var l := Onward(s.calls[h], h);
      OnwardStep(s, h);
      StepCallsOk(s, l);
      var rest := ComesFree(Step(s, l));
      more := [l] + rest;
      ExecCons(s, l, rest);
    }
  }

  /** A new Send writes a byte. */
  lemma {:induction false} NewWrites(s: State) returns (more: seq<Label>)
    requires s.holder == None && !s.stdinClosed && !s.done
    ensures |s.calls| < |Exec(s, more).calls| && Exec(s, more).calls[|s.calls|].n == 1
  {
    var j := |s.calls|;
    var a, b, c := [CheckCtx(j), CheckDone(j)], [Lock(j), CheckPhase(j)], [BeginWrite(j), Chunk(j, 1)];
    var s0 := Step(s, Enter([]));
    var s1 := Exec(s0, a);
    Queues(s0, j);
    var s2 := Exec(s1, b);
    Locks(s1, j);
    Writes(s2, j, 1);
    more := [Enter([])] + (a + (b + c));
    ExecCons(s, Enter([]), a + (b + c));
    ExecFrom(s0, a, b + c);
    ExecFrom(s1, b, c);
  }

  /** In every state a run reaches: no Send that starts from there on ever adds a byte exactly when stdin or the
      transport is closed by then. A write that fails part-way on its own closes neither. */
  lemma {:induction false} LaterQuietIff(ls: seq<Label>)
    ensures var s := Exec(INIT, ls); LaterQuiet(s) <==> s.stdinClosed || s.done
  {
    var s := Exec(INIT, ls);
    ReachableOk(ls);
    if s.stdinClosed || s.done {
      ShutIsQuiet(s);
    } else {
      var free := ComesFree(s);
      var t := Exec(s, free);
      var more := NewWrites(t);
      ExecFrom(s, free, more);
      assert Exec(s, free + more).calls[|s.calls|].n == 1;
    }
  }

  /** So once a Send cut off part-way by its cancel has returned, or one has returned that the transport is
      closed, no Send that starts afterwards adds a byte. */
  lemma {:induction false} LaterSendsAddNothing(ls: seq<Label>, more: seq<Label>, i: nat, j: nat)
    requires i < |Exec(INIT, ls).calls|
    requires var x := Exec(INIT, ls).calls[i];
      x.caller == Returned(ClosedPipe) || (x.caller == Returned(CtxErr) && x.n > 0)
    requires |Exec(INIT, ls).calls| <= j < |Exec(INIT, ls + more).calls|
    ensures Exec(INIT, ls + more).calls[j].n == 0
  {
    ReachableOk(ls);
    assert CallFits(Exec(INIT, ls), i);
    ShutIsQuiet(Exec(INIT, ls));
    ExecFrom(INIT, ls, more);
  }

  // One already queued on the lock may still write.

  lemma {:induction false} SeesCancel(s: State, i: nat)
    requires i < |s.calls| && WithinLine(s.calls[i]) && s.calls[i].caller == Selecting
    ensures Exec(s, [CtxEnds(i), SeeCtx(i)]) == With(s, i, s.calls[i].(ctxDone := true, caller := Cancelling))
  {
    ExecTwo(s, CtxEnds(i), SeeCtx(i));
    assert Step(s, CtxEnds(i)) == With(s, i, s.calls[i].(ctxDone := true));
  }

  lemma {:induction false} IsCutOff(s: State, i: nat)
    requires i < |s.calls| && WithinLine(s.calls[i]) && s.calls[i].caller == Cancelling && s.calls[i].phase == Writing
      && s.calls[i].go == InWrite
    ensures Exec(s, [Label.Cancel(i, false), WriteReturns(i, DeadlineExceeded)])
      == With(s, i, s.calls[i].(caller := Awaiting, go := Wrote, err := DeadlineExceeded)).(deadline := true)
  {
    ExecTwo(s, Label.Cancel(i, false), WriteReturns(i, DeadlineExceeded));
    assert Step(s, Label.Cancel(i, false)) == With(s, i, s.calls[i].(caller := Awaiting)).(deadline := true);
  }

  lemma {:induction false} Marks(s: State, i: nat)
    requires i < |s.calls| && WithinLine(s.calls[i]) && s.calls[i].go == Wrote
    ensures Step(s, MarkFinished(i)) == With(s, i, s.calls[i].(go := Marked, phase := Finished))
  {
  }

  lemma {:induction false} Clears(s: State, i: nat)
    requires i < |s.calls| && WithinLine(s.calls[i]) && s.calls[i].go == Marked
    ensures Step(s, ClearDeadline(i)) == With(s, i, s.calls[i].(go := Cleared)).(deadline := false)
  {
  }

  lemma {:induction false} CleansUp(s: State, i: nat)
    requires i < |s.calls| && WithinLine(s.calls[i]) && s.calls[i].go == Wrote
    ensures Exec(s, [MarkFinished(i), ClearDeadline(i)])
      == With(s, i, s.calls[i].(go := Cleared, phase := Finished)).(deadline := false)
  {
    var marked := With(s, i, s.calls[i].(go := Marked, phase := Finished));
    ExecTwo(s, MarkFinished(i), ClearDeadline(i));
    Marks(s, i);
    Clears(marked, i);
    assert marked.calls[i := marked.calls[i].(go := Cleared)]
      == s.calls[i := s.calls[i].(go := Cleared, phase := Finished)];
  }

  lemma {:induction false} TakesLate(s: State, i: nat)
    requires i < |s.calls| && s.calls[i].caller == Awaiting && s.calls[i].go == Cleared
    requires s.calls[i].err == DeadlineExceeded && 0 < s.calls[i].n < |s.calls[i].line|
    ensures Exec(s, [SendResult(i), TakeLate(i)]) == With(s, i, s.calls[i].(go := Sent, caller := Closing))
  {
    ExecTwo(s, SendResult(i), TakeLate(i));
    assert Step(s, SendResult(i)) == With(s, i, s.calls[i].(go := Sent));
  }

  lemma {:induction false} Unlocks(s: State, i: nat)
    requires i < |s.calls| && WithinLine(s.calls[i]) && s.calls[i].go == Sent
    ensures Exec(s, [Unlock(i)]) == With(s, i, s.calls[i].(go := Exited)).(holder := None)
  {
    ExecCons(s, Unlock(i), []);
    assert [Unlock(i)] + [] == [Unlock(i)];
  }

  lemma {:induction false} Closes(s: State, i: nat)
    requires i < |s.calls| && WithinLine(s.calls[i]) && s.calls[i].caller == Closing
    ensures Exec(s, [CloseStdin(i)]) == With(s, i, s.calls[i].(caller := Returned(CtxErr))).(stdinClosed := true)
  {
    ExecCons(s, CloseStdin(i), []);
    assert [CloseStdin(i)] + [] == [CloseStdin(i)];
  }

  lemma {:induction false} CutShort(s: State, i: nat) returns (more: seq<Label>)
    requires i < |s.calls| && WithinLine(s.calls[i]) && s.calls[i].caller == Selecting
    requires s.calls[i].phase == Writing && s.calls[i].go == InWrite
    ensures Exec(s, more)
      == With(s, i,
        s.calls[i].(ctxDone := true, caller := Awaiting, go := Wrote, err := DeadlineExceeded)).(deadline := true)
  {
    var a, b := [CtxEnds(i), SeeCtx(i)], [Label.Cancel(i, false), WriteReturns(i, DeadlineExceeded)];
    SeesCancel(s, i);
    IsCutOff(Exec(s, a), i);
    ExecFrom(s, a, b);
    more := a + b;
  }

  lemma {:induction false} SentOn(s: State, i: nat) returns (more: seq<Label>)
    requires i < |s.calls| && s.calls[i].caller == Awaiting && s.calls[i].go == Wrote
    requires s.calls[i].err == DeadlineExceeded && 0 < s.calls[i].n < |s.calls[i].line|
    ensures Exec(s, more)
      == With(s, i, s.calls[i].(caller := Closing, phase := Finished, go := Sent)).(deadline := false)
  {
    var a, b := [MarkFinished(i), ClearDeadline(i)], [SendResult(i), TakeLate(i)];
    CleansUp(s, i);
    TakesLate(Exec(s, a), i);
    ExecFrom(s, a, b);
    more := a + b;
  }

  /** The state of a write cut off part-way by its cancel when it has released the lock, before its caller has
      closed stdin. */
  function AfterCut(s: State, i: nat): State
    requires i < |s.calls|
  {
    With(s, i,
      s.calls[i].(ctxDone := true, caller := Closing, phase := Finished, go := Exited, err := DeadlineExceeded))
      .(holder := None, deadline := false)
  }

  lemma {:induction false} CutOff(s: State, i: nat) returns (more: seq<Label>)
    requires i < |s.calls| && 0 < s.calls[i].n < |s.calls[i].line| && s.calls[i].caller == Selecting
    requires s.calls[i].phase == Writing && s.calls[i].go == InWrite
    ensures Exec(s, more) == AfterCut(s, i)
  {
    var a := CutShort(s, i);
    var s1 := Exec(s, a);
    var b := SentOn(s1, i);
    var s2 := Exec(s1, b);
    Unlocks(s2, i);
    more := a + (b + [Unlock(i)]);
    ExecFrom(s, a, b + [Unlock(i)]);
    ExecFrom(s1, b, [Unlock(i)]);
  }

  /** Two Sends in, the first with the lock and one byte of its line written, the second queued behind it. */
  function Contended(d: seq<Byte>, e: seq<Byte>): State
    requires d != []
  {
    var first := NewCall(d).(caller := Selecting, phase := Writing, go := InWrite, open := true, n := 1);
    State([first, NewCall(e).(caller := Selecting, go := Queued)], Some(0), false, false, false, [d[0]], [0])
  }

  lemma {:induction false} TwoEnter(d: seq<Byte>, e: seq<Byte>)
    ensures Exec(INIT, [Enter(d), Enter(e)]) == INIT.(calls := [NewCall(d), NewCall(e)])
  {
    ExecTwo(INIT, Enter(d), Enter(e));
    assert Step(INIT, Enter(d)) == INIT.(calls := [NewCall(d)]);
  }

  function BothQueued(d: seq<Byte>, e: seq<Byte>): State {
    INIT.(calls := [NewCall(d).(caller := Selecting, go := Queued), NewCall(e).(caller := Selecting, go := Queued)])
  }

  lemma {:induction false} BothQueue(d: seq<Byte>, e: seq<Byte>) returns (ls: seq<Label>)
    ensures Exec(INIT, ls) == BothQueued(d, e)
  {
    var a, b, c := [Enter(d), Enter(e)], [CheckCtx(0), CheckDone(0)], [CheckCtx(1), CheckDone(1)];
    TwoEnter(d, e);
    var s1 := Exec(INIT, a);
    Queues(s1, 0);
    var s2 := Exec(s1, b);
    Queues(s2, 1);
    ls := a + (b + c);
    ExecFrom(INIT, a, b + c);
    ExecFrom(s1, b, c);
  }

  function OneLocked(d: seq<Byte>, e: seq<Byte>): State {
    var first, second :=
      NewCall(d).(caller := Selecting, phase := Writing, go := Ready), NewCall(e).(caller := Selecting, go := Queued);
    INIT.(calls := [first, second], holder := Some(0))
  }

  lemma {:induction false} OneLocks(d: seq<Byte>, e: seq<Byte>)
    ensures Exec(BothQueued(d, e), [Lock(0), CheckPhase(0)]) == OneLocked(d, e)
  {
    Locks(BothQueued(d, e), 0);
  }

  lemma {:induction false} OneWrites(d: seq<Byte>, e: seq<Byte>)
    requires d != []
    ensures Exec(OneLocked(d, e), [BeginWrite(0), Chunk(0, 1)]) == Contended(d, e)
  {
    Writes(OneLocked(d, e), 0, 1);
    assert NewCall(d).line[..1] == [d[0]];
  }

  lemma {:induction false} Contends(d: seq<Byte>, e: seq<Byte>) returns (ls: seq<Label>)
    requires d != []
    ensures Exec(INIT, ls) == Contended(d, e)
  {
    var a := BothQueue(d, e);
    OneLocks(d, e);
    OneWrites(d, e);
    ls := a + ([Lock(0), CheckPhase(0)] + [BeginWrite(0), Chunk(0, 1)]);
    ExecFrom(INIT, a, [Lock(0), CheckPhase(0)] + [BeginWrite(0), Chunk(0, 1)]);
    ExecFrom(BothQueued(d, e), [Lock(0), CheckPhase(0)], [BeginWrite(0), Chunk(0, 1)]);
  }

  /** So a Send already queued can put its whole line behind the first part of one that was cut off: it gets in
      between the cut-off write's release of the lock and its caller's closing of stdin. */
  lemma {:induction false} QueuedStillWrites(d: seq<Byte>, e: seq<Byte>) returns (ls: seq<Label>)
    requires d != []
    ensures var s := Exec(INIT, ls);
      && |s.calls| == 2 && s.calls[0].caller == Returned(CtxErr) && s.calls[0].n == 1 < |s.calls[0].line|
      && s.calls[1].n == |s.calls[1].line| && s.stdin == [d[0]] + (e + [NEWLINE]) && s.stdinClosed
  {
    var a := Contends(d, e);
    var s := Contended(d, e);
    var b := CutOff(s, 0);
    var s1 := AfterCut(s, 0);
    var c := NextWritesAll(s1, 1);
    var s2 := Exec(s1, c);
    Closes(s2, 0);
    ls := a + (b + (c + [CloseStdin(0)]));
    ExecFrom(INIT, a, b + (c + [CloseStdin(0)]));
    ExecFrom(s, b, c + [CloseStdin(0)]);
    ExecFrom(s1, c, [CloseStdin(0)]);
  }

  lemma {:induction false} NextWritesAll(s: State, i: nat) returns (more: seq<Label>)
    requires i < |s.calls| && s.calls[i].go == Queued && s.calls[i].phase != Abandoned
      && s.calls[i].n == 0 < |s.calls[i].line|
    requires s.holder == None && !s.stdinClosed
    ensures var x, t := s.calls[i], Exec(s, more);
      && t.calls == s.calls[i := x.(phase := Writing, go := InWrite, open := true, n := |x.line|)]
      && t.stdin == s.stdin + x.line && !t.stdinClosed
  {
    var x, a := s.calls[i], [Lock(i), CheckPhase(i)];
    var b := [BeginWrite(i), Chunk(i, |x.line|)];
    Locks(s, i);
    Writes(Exec(s, a), i, |x.line|);
    more := a + b;
    ExecFrom(s, a, b);
    assert x.line[..|x.line|] == x.line;
  }
}
