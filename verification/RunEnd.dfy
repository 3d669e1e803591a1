/** When a Query is over: domains/agent/runend.go. */
module RunEnd {
  import opened Seqs

  datatype CliState = Idle | Running | RequiresAction | OtherState(name: string)

  datatype BackgroundTask = BackgroundTask(id: string, taskType: string, ambient: bool)

  /** The messages `run` tells apart. `hostOnly` marks a state frame the caller did not ask for. */
  datatype Message =
    | StateChanged(state: CliState, hostOnly: bool)
    | TaskStarted(id: string, taskType: string)
    | BackgroundTasksChanged(tasks: seq<BackgroundTask>)
    | TaskNotification(id: string)
    | TaskUpdated(id: string, status: string)
    | Result
    | Plain(tag: int)

  /** The CLI as far as the messages consumed say: kept from one Query of a client to the next. */
  datatype Cli = Cli(reported: bool, state: CliState, inflight: set<string>)

  const NEW_CLI := Cli(false, OtherState(""), {})

  predicate Deferring(taskType: string) {
    taskType == "local_agent" || taskType == "local_workflow"
  }

  predicate Terminal(status: string) {
    status == "completed" || status == "failed" || status == "killed" || status == "stopped"
  }

  function Level(tasks: seq<BackgroundTask>): set<string> {
    set t | t in tasks && Deferring(t.taskType) && !t.ambient :: t.id
  }

  lemma LevelStep(tasks: seq<BackgroundTask>, i: nat)
    requires i < |tasks|
    ensures Level(tasks[..i + 1])
      == Level(tasks[..i]) + if Deferring(tasks[i].taskType) && !tasks[i].ambient then {tasks[i].id} else {}
  {
    assert tasks[..i + 1] == tasks[..i] + [tasks[i]];
  }

  function Tracked(inflight: set<string>, m: Message): set<string> {
    match m
    case TaskStarted(id, taskType) => if Deferring(taskType) then inflight + {id} else inflight
    case BackgroundTasksChanged(tasks) => Level(tasks)
    case TaskNotification(id) => inflight - {id}
    case TaskUpdated(id, status) => if Terminal(status) then inflight - {id} else inflight
    case _ => inflight
  }

  predicate RunOver(c: Cli) {
    c.inflight == {} && (!c.reported || c.state == Idle)
  }

  // The ledger.

  function TrackAll(inflight: set<string>, h: seq<Message>): set<string> {
    if h == [] then inflight else Tracked(TrackAll(inflight, h[..|h| - 1]), h[|h| - 1])
  }

  predicate LevelHas(t: BackgroundTask, id: string) {
    t.id == id && Deferring(t.taskType) && !t.ambient
  }

  /** m says the agent is in flight. */
  predicate Puts(m: Message, id: string) {
    || (m.TaskStarted? && m.id == id && Deferring(m.taskType))
    || (m.BackgroundTasksChanged? && exists i :: 0 <= i < |m.tasks| && LevelHas(m.tasks[i], id))
  }

  /** m says the agent is not in flight. */
  predicate Takes(m: Message, id: string) {
    (m.TaskNotification? && m.id == id)
    || (m.TaskUpdated? && m.id == id && Terminal(m.status))
    || (m.BackgroundTasksChanged? && !Puts(m, id))
  }

  lemma TrackedSays(inflight: set<string>, m: Message, id: string)
    ensures id in Tracked(inflight, m) <==> Puts(m, id) || (id in inflight && !Takes(m, id))
  {
    if m.BackgroundTasksChanged? {
      if id in Level(m.tasks) {
        var t :| t in m.tasks && Deferring(t.taskType) && !t.ambient && t.id == id;
        var i :| 0 <= i < |m.tasks| && m.tasks[i] == t;
      }
    }
  }

  /** Some message of the history put the agent in flight and no later one took it off, or it was in flight
      before and none did. */
  ghost predicate InFlight(inflight: set<string>, h: seq<Message>, id: string) {
    || (exists i :: 0 <= i < |h| && Puts(h[i], id) && NotTaken(h, i + 1, id))
    || (id in inflight && NotTaken(h, 0, id))
  }

  ghost predicate NotTaken(h: seq<Message>, from: nat, id: string) {
    forall j :: from <= j < |h| ==> !Takes(h[j], id)
  }

  lemma InFlightStep(inflight: set<string>, h: seq<Message>, m: Message, id: string)
    ensures InFlight(inflight, h + [m], id) <==> Puts(m, id) || (InFlight(inflight, h, id) && !Takes(m, id))
  {
    var all := h + [m];
    assert all[|h|] == m;
    if Puts(m, id) {
      assert NotTaken(all, |h| + 1, id);
    } else if InFlight(inflight, h, id) && !Takes(m, id) {
      if i :| 0 <= i < |h| && Puts(h[i], id) && NotTaken(h, i + 1, id) {
        assert Puts(all[i], id) && NotTaken(all, i + 1, id);
      } else {
        assert NotTaken(all, 0, id);
      }
    } else if InFlight(inflight, all, id) {
      NotInFlight(inflight, h, m, id);
    }
  }

  lemma NotInFlight(inflight: set<string>, h: seq<Message>, m: Message, id: string)
    requires InFlight(inflight, h + [m], id) && !Puts(m, id)
    ensures InFlight(inflight, h, id) && !Takes(m, id)
  {
    var all := h + [m];
    assert all[|h|] == m;
    if i :| 0 <= i < |all| && Puts(all[i], id) && NotTaken(all, i + 1, id) {
      assert Puts(h[i], id);
      assert forall j :: i < j < |h| ==> all[j] == h[j];
      assert NotTaken(h, i + 1, id);
    } else {
      assert forall j :: 0 <= j < |h| ==> all[j] == h[j];
      assert NotTaken(h, 0, id);
    }
  }

  /** The ledger's closed form: after any history an agent is tracked exactly when it is in flight by that
      history, whatever order edges and levels came in. */
  lemma {:induction false} LedgerClosedForm(inflight: set<string>, h: seq<Message>, id: string)
    ensures id in TrackAll(inflight, h) <==> InFlight(inflight, h, id)
  {
    if h != [] {
      var front, m := h[..|h| - 1], h[|h| - 1];
      LedgerClosedForm(inflight, front, id);
      TrackedSays(TrackAll(inflight, front), m, id);
      InFlightStep(inflight, front, m, id);
      assert h == front + [m];
    }
  }

  // The loop.

  /** One choice of the select: a message (and whether the caller asks for more), the message channel
      closed (and whether an error was waiting), the ceiling timer, an error or nil on the error
      channel, or the context done. */
  datatype Event =
    | Received(msg: Message, goOn: bool)
    | Closed(pendingErr: bool)
    | CeilingFired
    | ErrorReceived(isNil: bool)
    | ContextDone

  datatype Delivery = Delivered(msg: Message) | DeliveredErr

  datatype Outcome = Waiting | AtResult | AtIdle | AtCeiling | CallerStopped | ChannelClosed | Errored | Cancelled

  datatype RunState = RunState(resultSeen: bool, armed: bool, cli: Cli)

  datatype Exit = Exit(s: RunState, outcome: Outcome, next: nat, out: seq<Delivery>)

  function Start(c: Cli): RunState {
    RunState(false, false, c)
  }

  predicate Hidden(m: Message) {
    m.StateChanged? && m.hostOnly
  }

  function StepMessage(s: RunState, m: Message): (RunState, Outcome) {
    if m.StateChanged? then
      var c := s.cli.(reported := true, state := m.state);
      if !s.resultSeen then (s.(cli := c), Waiting)
      else if m.state == Idle && c.inflight == {} then (s.(cli := c), AtIdle)
      else (s.(cli := c, armed := false), Waiting)
    else
      var c := s.cli.(inflight := Tracked(s.cli.inflight, m));
      var settled := s.cli.inflight != {} && c.inflight == {};
      var s' := s.(cli := c, armed := s.armed || (settled && s.resultSeen));
      if m != Result then (s', Waiting)
      else if RunOver(c) then (s'.(resultSeen := true), AtResult)
      else (s'.(resultSeen := true, armed := true), Waiting)
  }

  function Step(s: RunState, e: Event): (RunState, Outcome, seq<Delivery>) {
    match e
    case Received(m, goOn) =>
      var out := if Hidden(m) then [] else [Delivered(m)];
      if !Hidden(m) && !goOn then
        (if m.StateChanged? then s.(cli := s.cli.(reported := true, state := m.state)) else s, CallerStopped, out)
      else
        var (s', o) := StepMessage(s, m);
        (s', o, out)
    case Closed(pendingErr) => (s, ChannelClosed, if pendingErr then [DeliveredErr] else [])
    case CeilingFired =>
      if !s.armed then (s, Waiting, [])
      else if s.cli.inflight != {} then (s.(armed := false), Waiting, [])
      else (s, AtCeiling, [])
    case ErrorReceived(isNil) => (s, Errored, if isNil then [] else [DeliveredErr])
    case ContextDone => (s, Cancelled, [DeliveredErr])
  }

  /** The run from s over events[i..]; it stops at its end or when no event is left. */
  function Exec(s: RunState, events: seq<Event>, i: nat): (x: Exit)
    requires i <= |events|
    ensures i <= x.next <= |events| && (x.outcome == Waiting ==> x.next == |events|)
    decreases |events| - i
  {
    if i == |events| then Exit(s, Waiting, i, [])
    else
      var (s', o, out) := Step(s, events[i]);
      if o != Waiting then Exit(s', o, i + 1, out)
      else
        var x := Exec(s', events, i + 1);
        x.(out := out + x.out)
  }

  class SessionState {
    var reported: bool
    var state: CliState
    var inflight: set<string>

    function View(): Cli
      reads this
    {
      Cli(reported, state, inflight)
    }

    constructor ()
      ensures View() == NEW_CLI
    {
      reported, state, inflight := false, OtherState(""), {};
    }

    method Set(st: CliState)
      modifies this
      ensures View() == old(View()).(reported := true, state := st)
    {
      reported, state := true, st;
    }

    method Relist(tasks: seq<BackgroundTask>)
      modifies this`inflight
      ensures inflight == Level(tasks)
    {
      inflight := {};
      for i := 0 to |tasks|
        invariant inflight == Level(tasks[..i])
      {
        LevelStep(tasks, i);
        if Deferring(tasks[i].taskType) && !tasks[i].ambient {
          inflight := inflight + {tasks[i].id};
        }
      }
      assert tasks[..|tasks|] == tasks;
    }

    /** `settled` says this took the last in-flight agent off the ledger. */
    method Track(m: Message) returns (settled: bool)
      modifies this
      ensures View() == old(View()).(inflight := Tracked(old(inflight), m))
      ensures settled <==> old(inflight) != {} && inflight == {}
    {
      var before := |inflight|;
      match m {
        case TaskStarted(id, taskType) =>
          if Deferring(taskType) {
            inflight := inflight + {id};
          }
        case BackgroundTasksChanged(tasks) =>
          Relist(tasks);
        case TaskNotification(id) => inflight := inflight - {id};
        case TaskUpdated(id, status) =>
          if Terminal(status) {
            inflight := inflight - {id};
          }
        case _ =>
      }
      settled := before > 0 && |inflight| == 0;
    }

    method IsRunOver() returns (over: bool)
      ensures over == RunOver(View())
    {
      over := |inflight| == 0 && (!reported || state == Idle);
    }

    /** One message: what the body of the select's first case does with it. */
    method Consume(m: Message, goOn: bool, seen: bool, armed: bool)
      returns (outcome: Outcome, nowSeen: bool, nowArmed: bool, out: seq<Delivery>)
      modifies this
      ensures Step(RunState(seen, armed, old(View())), Received(m, goOn))
        == (RunState(nowSeen, nowArmed, View()), outcome, out)
    {
      nowSeen, nowArmed, outcome, out := seen, armed, Waiting, [];
      if m.StateChanged? {
        Set(m.state);
        if !Hidden(m) {
          out := [Delivered(m)];
          if !goOn {
            return CallerStopped, nowSeen, nowArmed, out;
          }
        }
        if !seen {
          return;
        }
        if m.state == Idle && |inflight| == 0 {
          return AtIdle, nowSeen, nowArmed, out;
        }
        nowArmed := false;
        return;
      }
      out := [Delivered(m)];
      if !goOn {
        return CallerStopped, nowSeen, nowArmed, out;
      }
      var settled := Track(m);
      if settled && seen {
        nowArmed := true;
      }
      if m != Result {
        return;
      }
      nowSeen := true;
      var over := IsRunOver();
      if over {
        return AtResult, nowSeen, nowArmed, out;
      }
      nowArmed := true;
    }

    /** One choice of the select. */
    method Select(e: Event, seen: bool, armed: bool)
      returns (outcome: Outcome, nowSeen: bool, nowArmed: bool, out: seq<Delivery>)
      modifies this
      ensures Step(RunState(seen, armed, old(View())), e) == (RunState(nowSeen, nowArmed, View()), outcome, out)
    {
      nowSeen, nowArmed, outcome, out := seen, armed, Waiting, [];
      match e {
        case Received(m, goOn) =>
          outcome, nowSeen, nowArmed, out := Consume(m, goOn, seen, armed);
        case Closed(pendingErr) =>
          outcome, out := ChannelClosed, if pendingErr then [DeliveredErr] else [];
        case CeilingFired =>
          if armed {
            if |inflight| > 0 {
              nowArmed := false;
            } else {
              outcome := AtCeiling;
            }
          }
        case ErrorReceived(isNil) =>
          outcome, out := Errored, if isNil then [] else [DeliveredErr];
        case ContextDone =>
          outcome, out := Cancelled, [DeliveredErr];
      }
    }

    /** `events` are what the select picks, in order. */
    method Run(events: seq<Event>) returns (outcome: Outcome, next: nat, out: seq<Delivery>, seen: bool, armed: bool)
      modifies this
      ensures Exec(Start(old(View())), events, 0) == Exit(RunState(seen, armed, View()), outcome, next, out)
    {
      seen, armed, out, next, outcome := false, false, [], 0, Waiting;
      while next < |events|
        invariant next <= |events|
        invariant Resumed(out, Exec(RunState(seen, armed, View()), events, next)) == Exec(Start(old(View())), events, 0)
      {
        ResumedStep(out, RunState(seen, armed, View()), events, next);
        var delivered;
        outcome, seen, armed, delivered := Select(events[next], seen, armed);
        out, next := out + delivered, next + 1;
        if outcome != Waiting {
          return;
        }
      }
      outcome := Waiting;
    }
  }

  function Resumed(out: seq<Delivery>, x: Exit): Exit {
    x.(out := out + x.out)
  }

  lemma ResumedStep(out: seq<Delivery>, s: RunState, events: seq<Event>, i: nat)
    requires i < |events|
    ensures var (s', o, d) := Step(s, events[i]);
      Resumed(out, Exec(s, events, i)) == if o != Waiting then Exit(s', o, i + 1, out + d)
        else Resumed(out + d, Exec(s', events, i + 1))
  {
    var (s', o, d) := Step(s, events[i]);
    if o == Waiting {
      assert out + (d + Exec(s', events, i + 1).out) == out + d + Exec(s', events, i + 1).out;
    }
  }

  // Safety over whole runs.

  /** With a result seen, nothing in flight and no timer, the CLI is known to be busy: it has reported a
      state and the latest is not idle, so a further frame is owed. */
  predicate NotWedged(s: RunState) {
    s.resultSeen && s.cli.inflight == {} && !s.armed ==> s.cli.reported && s.cli.state != Idle
  }

  lemma StepNotWedged(s: RunState, e: Event)
    requires NotWedged(s)
    ensures Step(s, e).1 == Waiting ==> NotWedged(Step(s, e).0)
  {
  }

  lemma {:induction false} ExecNotWedged(s: RunState, events: seq<Event>, i: nat)
    requires NotWedged(s) && i <= |events|
    ensures Exec(s, events, i).outcome == Waiting ==> NotWedged(Exec(s, events, i).s)
    decreases |events| - i
  {
    if i < |events| {
      StepNotWedged(s, events[i]);
      if Step(s, events[i]).1 == Waiting {
        ExecNotWedged(Step(s, events[i]).0, events, i + 1);
      }
    }
  }

  /** A run is never wedged, whatever earlier Queries left behind and whatever the select picks. */
  lemma NeverWedged(c: Cli, events: seq<Event>)
    ensures var x := Exec(Start(c), events, 0); x.outcome == Waiting ==> NotWedged(x.s)
  {
    ExecNotWedged(Start(c), events, 0);
  }

  predicate EndedByItself(o: Outcome) {
    o == AtResult || o == AtIdle || o == AtCeiling
  }

  lemma {:induction false} ExecEnds(s: RunState, events: seq<Event>, i: nat)
    requires i <= |events| && (s.armed ==> s.resultSeen)
    ensures var x := Exec(s, events, i);
      EndedByItself(x.outcome) ==>
        x.s.cli.inflight == {}
          && (s.resultSeen || exists k :: i <= k < x.next && events[k].Received? && events[k].msg == Result)
    decreases |events| - i
  {
    if i < |events| {
      var (s', o, _) := Step(s, events[i]);
      if o == Waiting {
        ExecEnds(s', events, i + 1);
        if s'.resultSeen && !s.resultSeen {
          assert events[i].Received? && events[i].msg == Result;
        }
      } else if o == AtResult {
        assert events[i].Received? && events[i].msg == Result;
      }
    }
  }

  /** A run never ends early: unless the caller, the context, an error or a closed channel ends it, it
      ends after a result of this run and with no tracked agent in flight. */
  lemma NeverEndsEarly(c: Cli, events: seq<Event>)
    ensures var x := Exec(Start(c), events, 0);
      EndedByItself(x.outcome) ==>
        x.s.cli.inflight == {} && exists k :: 0 <= k < x.next && events[k].Received? && events[k].msg == Result
  {
    ExecEnds(Start(c), events, 0);
  }

  // Where a run ends when no timer fires.

  /** What one more message makes of the CLI's record. */
  function CliWith(c: Cli, m: Message): Cli {
    if m.StateChanged? then c.(reported := true, state := m.state) else c.(inflight := Tracked(c.inflight, m))
  }

  function CliAfter(c: Cli, h: seq<Message>): Cli {
    if h == [] then c else CliWith(CliAfter(c, h[..|h| - 1]), h[|h| - 1])
  }

  lemma {:induction false} CliLedger(c: Cli, h: seq<Message>)
    ensures CliAfter(c, h).inflight == TrackAll(c.inflight, h)
  {
    if h != [] {
      CliLedger(c, h[..|h| - 1]);
    }
  }

  predicate HasResult(h: seq<Message>) {
    exists i :: 0 <= i < |h| && h[i] == Result
  }

  /** The i-th message is an end: a result with an empty ledger while no state was ever reported or the
      latest is idle, or an idle after a result with an empty ledger. */
  predicate EndsAt(c: Cli, msgs: seq<Message>, i: nat)
    requires i < |msgs|
  {
    var c' := CliAfter(c, msgs[..i + 1]);
    && c'.inflight == {}
    && ((msgs[i] == Result && (!c'.reported || c'.state == Idle))
        || (msgs[i].StateChanged? && msgs[i].state == Idle && HasResult(msgs[..i])))
  }

  function Feed(msgs: seq<Message>): (e: seq<Event>)
    ensures |e| == |msgs| && forall i :: 0 <= i < |msgs| ==> e[i] == Received(msgs[i], true)
  {
    seq(|msgs|, i requires 0 <= i < |msgs| => Received(msgs[i], true))
  }

  lemma CliStep(c: Cli, msgs: seq<Message>, i: nat)
    requires i < |msgs|
    ensures CliAfter(c, msgs[..i + 1]) == CliWith(CliAfter(c, msgs[..i]), msgs[i])
  {
    assert msgs[..i + 1][..i] == msgs[..i];
  }

  lemma ResultStep(msgs: seq<Message>, i: nat)
    requires i < |msgs|
    ensures HasResult(msgs[..i + 1]) <==> HasResult(msgs[..i]) || msgs[i] == Result
  {
    assert msgs[..i + 1] == msgs[..i] + [msgs[i]];
    if msgs[i] == Result {
      assert msgs[..i + 1][i] == Result;
    }
    if HasResult(msgs[..i]) {
      var k :| 0 <= k < i && msgs[..i][k] == Result;
      assert msgs[..i + 1][k] == Result;
    }
  }

  lemma ExecStep(s: RunState, events: seq<Event>, i: nat)
    requires i < |events|
    ensures var (s', o, _) := Step(s, events[i]);
      var x := Exec(s, events, i);
      if o != Waiting then x.s == s' && x.outcome == o && x.next == i + 1
      else var y := Exec(s', events, i + 1); x.s == y.s && x.outcome == y.outcome && x.next == y.next
  {
  }

  /** A step that consumes the i-th message stops exactly if it is an end, and otherwise keeps track. */
  lemma StepEndsAt(c: Cli, msgs: seq<Message>, i: nat, s: RunState)
    requires i < |msgs| && s.cli == CliAfter(c, msgs[..i]) && s.resultSeen == HasResult(msgs[..i])
    ensures var (s', o, _) := Step(s, Received(msgs[i], true));
      && s'.cli == CliAfter(c, msgs[..i + 1])
      && (if EndsAt(c, msgs, i) then o == AtResult || o == AtIdle
          else o == Waiting && s'.resultSeen == HasResult(msgs[..i + 1]))
  {
    CliStep(c, msgs, i);
    ResultStep(msgs, i);
  }

  /** From the i-th message on, x stopped at the first end, or there is none. */
  ghost predicate StoppedAtFirst(c: Cli, msgs: seq<Message>, i: nat, x: Exit) {
    if x.outcome == Waiting then forall k :: i <= k < |msgs| ==> !EndsAt(c, msgs, k)
    else
      && i < x.next <= |msgs| && EndsAt(c, msgs, x.next - 1)
      && (forall k :: i <= k < x.next - 1 ==> !EndsAt(c, msgs, k))
         && (x.outcome == AtResult || x.outcome == AtIdle) && x.s.cli == CliAfter(c, msgs[..x.next])
  }

  lemma NotHere(c: Cli, msgs: seq<Message>, i: nat, x: Exit, y: Exit)
    requires i < |msgs| && !EndsAt(c, msgs, i) && StoppedAtFirst(c, msgs, i + 1, y)
    requires x.s == y.s && x.outcome == y.outcome && x.next == y.next
    ensures StoppedAtFirst(c, msgs, i, x)
  {
  }

  lemma {:induction false} ExecEndsAt(c: Cli, msgs: seq<Message>, i: nat, s: RunState)
    requires i <= |msgs| && s.cli == CliAfter(c, msgs[..i]) && s.resultSeen == HasResult(msgs[..i])
    ensures StoppedAtFirst(c, msgs, i, Exec(s, Feed(msgs), i))
    decreases |msgs| - i
  {
    if i < |msgs| {
      StepEndsAt(c, msgs, i, s);
      ExecStep(s, Feed(msgs), i);
      var s' := Step(s, Received(msgs[i], true)).0;
      if !EndsAt(c, msgs, i) {
        ExecEndsAt(c, msgs, i + 1, s');
        NotHere(c, msgs, i, Exec(s, Feed(msgs), i), Exec(s', Feed(msgs), i + 1));
      }
    }
  }

  /** Without a ceiling firing, a run consumes exactly up to the first end. */
  lemma EndsAtFirst(c: Cli, msgs: seq<Message>)
    ensures var x := Exec(Start(c), Feed(msgs), 0);
      if x.outcome == Waiting then forall k :: 0 <= k < |msgs| ==> !EndsAt(c, msgs, k)
      else 0 < x.next && EndsAt(c, msgs, x.next - 1) && (forall k :: 0 <= k < x.next - 1 ==> !EndsAt(c, msgs, k))
           && x.s.cli == CliAfter(c, msgs[..x.next])
  {
    assert msgs[..0] == [];
    ExecEndsAt(c, msgs, 0, Start(c));
  }

  // One block of frames a Query.

  predicate IsIdle(m: Message) {
    m.StateChanged? && m.state == Idle
  }

  /** A block opens with running, holds a result, has idle as its last frame only, and leaves nothing in flight. */
  ghost predicate IsBlock(c: Cli, b: seq<Message>) {
    && |b| > 0 && b[0].StateChanged? && b[0].state == Running
    && HasResult(b) && IsIdle(b[|b| - 1]) && (forall i :: 0 <= i < |b| - 1 ==> !IsIdle(b[i]))
    && CliAfter(c, b).inflight == {}
  }

  ghost predicate AreBlocks(c: Cli, bs: seq<seq<Message>>)
    decreases |bs|
  {
    bs == [] || (IsBlock(c, bs[0]) && AreBlocks(CliAfter(c, bs[0]), bs[1..]))
  }

  function Stream(bs: seq<seq<Message>>): seq<Message> {
    if bs == [] then [] else bs[0] + Stream(bs[1..])
  }

  /** n Queries of one client, one after the other: the frames each consumed. */
  function Queries(c: Cli, frames: seq<Message>, n: nat): seq<seq<Message>>
    decreases n
  {
    if n == 0 then []
    else
      var x := Exec(Start(c), Feed(frames), 0);
      [frames[..x.next]] + Queries(x.s.cli, frames[x.next..], n - 1)
  }

  lemma {:induction false} BusyInBlock(c: Cli, b: seq<Message>, i: nat)
    requires |b| > 0 && b[0].StateChanged? && b[0].state == Running && i < |b|
    requires forall k :: 0 <= k <= i ==> !IsIdle(b[k])
    ensures CliAfter(c, b[..i + 1]).reported && CliAfter(c, b[..i + 1]).state != Idle
  {
    CliStep(c, b, i);
    if i > 0 {
      BusyInBlock(c, b, i - 1);
    }
  }

  lemma FirstBlock(c: Cli, b: seq<Message>, rest: seq<Message>)
    requires IsBlock(c, b)
    ensures var x := Exec(Start(c), Feed(b + rest), 0); x.next == |b| && x.s.cli == CliAfter(c, b)
  {
    var frames := b + rest;
    EndsAtFirst(c, frames);
    BlockEnds(c, b, rest);
    forall j | 0 <= j < |b| - 1 ensures !EndsAt(c, frames, j) {
      NotBefore(c, b, rest, j);
    }
    assert frames[..|b|] == b;
  }

  lemma BlockEnds(c: Cli, b: seq<Message>, rest: seq<Message>)
    requires IsBlock(c, b)
    ensures EndsAt(c, b + rest, |b| - 1)
  {
    var last := |b| - 1;
    assert (b + rest)[..|b|] == b && (b + rest)[..last] == b[..last];
    var k :| 0 <= k < |b| && b[k] == Result;
    assert b[..last][k] == Result;
  }

  lemma NotBefore(c: Cli, b: seq<Message>, rest: seq<Message>, j: nat)
    requires IsBlock(c, b) && j < |b| - 1
    ensures !EndsAt(c, b + rest, j)
  {
    assert (b + rest)[..j + 1] == b[..j + 1];
    BusyInBlock(c, b, j);
  }

  /** Consecutive Queries consume one whole block each: no frame leaks from one to the next. */
  lemma {:induction false} OneBlockEach(c: Cli, bs: seq<seq<Message>>)
    requires AreBlocks(c, bs)
    ensures Queries(c, Stream(bs), |bs|) == bs
    decreases |bs|
  {
    if bs != [] {
      var frames, rest := Stream(bs), Stream(bs[1..]);
      FirstBlock(c, bs[0], rest);
      assert frames[..|bs[0]|] == bs[0] && frames[|bs[0]|..] == rest;
      OneBlockEach(CliAfter(c, bs[0]), bs[1..]);
      assert bs == [bs[0]] + bs[1..];
    }
  }

  // What a Query delivers, and why it ends.

  /** Every frame but the host-only ones, and an error when one ends the run. */
  function DeliveryOf(e: Event): seq<Delivery> {
    match e
    case Received(m, _) => if Hidden(m) then [] else [Delivered(m)]
    case Closed(pendingErr) => if pendingErr then [DeliveredErr] else []
    case CeilingFired => []
    case ErrorReceived(isNil) => if isNil then [] else [DeliveredErr]
    case ContextDone => [DeliveredErr]
  }

  function Deliveries(events: seq<Event>): seq<Delivery> {
    if events == [] then [] else Deliveries(events[..|events| - 1]) + DeliveryOf(events[|events| - 1])
  }

  lemma StepDelivers(s: RunState, events: seq<Event>, i: nat)
    requires i < |events|
    ensures Deliveries(events[..i + 1]) == Deliveries(events[..i]) + Step(s, events[i]).2
  {
    assert events[..i + 1][..i] == events[..i];
  }

  lemma {:induction false} ExecDelivers(s: RunState, events: seq<Event>, i: nat)
    requires i <= |events|
    ensures var x := Exec(s, events, i); Deliveries(events[..x.next]) == Deliveries(events[..i]) + x.out
    decreases |events| - i
  {
    if i < |events| {
      var (t, o, out) := Step(s, events[i]);
      StepDelivers(s, events, i);
      if o == Waiting {
        ExecDelivers(t, events, i + 1);
        Associative(Deliveries(events[..i]), out, Exec(t, events, i + 1).out);
      }
    }
  }

  /** A Query delivers, in order, every frame it consumed but the host-only ones, and the error that ends it. */
  lemma DeliversAll(c: Cli, events: seq<Event>)
    ensures var x := Exec(Start(c), events, 0); x.out == Deliveries(events[..x.next])
  {
    ExecDelivers(Start(c), events, 0);
    assert events[..0] == [];
  }

  /** The event ends any run: the caller stops, the channel closes, an error comes or the context is done. */
  predicate EndsAny(e: Event) {
    e.Closed? || e.ErrorReceived? || e.ContextDone? || (e.Received? && !e.goOn && !Hidden(e.msg))
  }

  /** Such an event ends it with that outcome; otherwise only a result, an idle or the ceiling does. */
  predicate EndFits(e: Event, o: Outcome) {
    match o
    case Waiting => !EndsAny(e)
    case AtResult => e.Received? && e.msg == Result && !EndsAny(e)
    case AtIdle => e.Received? && IsIdle(e.msg) && !EndsAny(e)
    case AtCeiling => e.CeilingFired?
    case CallerStopped => e.Received? && EndsAny(e)
    case ChannelClosed => e.Closed?
    case Errored => e.ErrorReceived?
    case Cancelled => e.ContextDone?
  }

  lemma {:induction false} ExecWhy(s: RunState, events: seq<Event>, i: nat)
    requires i <= |events|
    ensures var x := Exec(s, events, i);
      && (x.outcome != Waiting ==> i < x.next && EndFits(events[x.next - 1], x.outcome))
      && forall j :: i <= j < x.next && (x.outcome == Waiting || j < x.next - 1) ==> !EndsAny(events[j])
    decreases |events| - i
  {
    if i < |events| && Step(s, events[i]).1 == Waiting {
      ExecWhy(Step(s, events[i]).0, events, i + 1);
    }
  }

  /** Why a Query ended: its last event says so, and no event before would have ended it. */
  lemma WhyEnded(c: Cli, events: seq<Event>)
    ensures var x := Exec(Start(c), events, 0);
      && (x.outcome != Waiting ==> 0 < x.next && EndFits(events[x.next - 1], x.outcome))
      && forall j :: 0 <= j < x.next && (x.outcome == Waiting || j < x.next - 1) ==> !EndsAny(events[j])
  {
    ExecWhy(Start(c), events, 0);
  }

  // What a client knows from Query to Query.

  function MessageIn(e: Event): seq<Message> {
    if e.Received? then [e.msg] else []
  }

  /** The messages among what the select picked. */
  function Messages(events: seq<Event>): seq<Message> {
    if events == [] then [] else Messages(events[..|events| - 1]) + MessageIn(events[|events| - 1])
  }

  /** The messages the ledger was kept from: all that were consumed, but a last one at which the caller stopped,
      unless that was a state. */
  function Heard(events: seq<Event>, o: Outcome): seq<Message> {
    var h := Messages(events);
    if o == CallerStopped && h != [] && !h[|h| - 1].StateChanged? then h[..|h| - 1] else h
  }

  lemma MessagesStep(events: seq<Event>, i: nat)
    requires i < |events|
    ensures Messages(events[..i + 1]) == Messages(events[..i]) + MessageIn(events[i])
  {
    assert events[..i + 1][..i] == events[..i];
  }

  lemma CliEnd(c: Cli, h: seq<Message>, m: Message)
    ensures CliAfter(c, h + [m]) == CliWith(CliAfter(c, h), m)
  {
    assert (h + [m])[..|h|] == h;
  }

  lemma StepCli(s: RunState, e: Event)
    ensures var (t, o, _) := Step(s, e);
      && (!e.Received? || (o == CallerStopped && !e.msg.StateChanged?) ==> t.cli == s.cli)
      && (e.Received? && (o != CallerStopped || e.msg.StateChanged?) ==> t.cli == CliWith(s.cli, e.msg))
      && (o == CallerStopped ==> e.Received?)
  {
  }

  lemma {:induction false} StepHears(c: Cli, events: seq<Event>, i: nat, s: RunState)
    requires i < |events| && s.cli == CliAfter(c, Messages(events[..i]))
    ensures var (t, o, _) := Step(s, events[i]);
      t.cli == CliAfter(c, Heard(events[..i + 1], o))
  {
    var h, e := Messages(events[..i]), events[i];
    MessagesStep(events, i);
    StepCli(s, e);
    if e.Received? {
      CliEnd(c, h, e.msg);
      assert (h + [e.msg])[..|h|] == h;
    } else {
      assert h + [] == h;
    }
  }

  lemma {:induction false} ExecHears(c: Cli, events: seq<Event>, i: nat, s: RunState)
    requires i <= |events| && s.cli == CliAfter(c, Messages(events[..i]))
    ensures var x := Exec(s, events, i); x.s.cli == CliAfter(c, Heard(events[..x.next], x.outcome))
    decreases |events| - i
  {
    if i < |events| {
      StepHears(c, events, i, s);
      ExecStep(s, events, i);
      if Step(s, events[i]).1 == Waiting {
        ExecHears(c, events, i + 1, Step(s, events[i]).0);
      }
    }
  }

  lemma {:induction false} StoppedAtMessage(s: RunState, events: seq<Event>, i: nat)
    requires i <= |events| && Exec(s, events, i).outcome == CallerStopped
    ensures Messages(events[..Exec(s, events, i).next]) != []
    decreases |events| - i
  {
    if i < |events| {
      StepCli(s, events[i]);
      MessagesStep(events, i);
      if Step(s, events[i]).1 == Waiting {
        StoppedAtMessage(Step(s, events[i]).0, events, i + 1);
      }
    }
  }

  /** What a Query leaves of the CLI's record, whatever the select picks, is what the messages it consumed say,
      but for a last one at which its caller stopped. */
  lemma QueryKeeps(c: Cli, events: seq<Event>)
    ensures var x := Exec(Start(c), events, 0);
      && x.s.cli == CliAfter(c, Heard(events[..x.next], x.outcome))
      && x.s.cli.inflight == TrackAll(c.inflight, Heard(events[..x.next], x.outcome))
  {
    var x := Exec(Start(c), events, 0);
    assert events[..0] == [];
    ExecHears(c, events, 0, Start(c));
    CliLedger(c, Heard(events[..x.next], x.outcome));
  }

  /** By the history before it, the message says nothing new: it puts in flight only what is, and takes off only
      what is not. */
  ghost predicate SaysNothingNew(inflight: set<string>, before: seq<Message>, m: Message) {
    forall id {:trigger InFlight(inflight, before, id)} ::
      (Puts(m, id) ==> InFlight(inflight, before, id)) && (Takes(m, id) ==> !InFlight(inflight, before, id))
  }

  /** So its ledger is the closed form over everything consumed exactly when its caller did not stop it, or
      stopped it at a message that said nothing new: the message is yielded before it is tracked. */
  lemma {:induction false} QueryLedgerIff(c: Cli, events: seq<Event>)
    ensures var x := Exec(Start(c), events, 0);
      var h := Messages(events[..x.next]);
      && (x.outcome == CallerStopped ==> h != [])
      && (x.s.cli.inflight == TrackAll(c.inflight, h)
          <==> (x.outcome == CallerStopped ==> SaysNothingNew(c.inflight, h[..|h| - 1], h[|h| - 1])))
  {
    var x := Exec(Start(c), events, 0);
    QueryKeeps(c, events);
    if x.outcome == CallerStopped {
      StoppedAtMessage(Start(c), events, 0);
    }
    HeardIff(c.inflight, events[..x.next], x.outcome);
  }

  lemma {:induction false} HeardIff(inflight: set<string>, events: seq<Event>, o: Outcome)
    requires o == CallerStopped ==> Messages(events) != []
    ensures var h := Messages(events);
      TrackAll(inflight, Heard(events, o)) == TrackAll(inflight, h)
      <==> (o == CallerStopped ==> SaysNothingNew(inflight, h[..|h| - 1], h[|h| - 1]))
  {
    var h := Messages(events);
    if o == CallerStopped {
      LastChanges(inflight, h[..|h| - 1], h[|h| - 1]);
    }
  }

  lemma {:induction false} LastChanges(inflight: set<string>, before: seq<Message>, m: Message)
    ensures Tracked(TrackAll(inflight, before), m) == TrackAll(inflight, before)
      <==> SaysNothingNew(inflight, before, m)
  {
    var ledger := TrackAll(inflight, before);
    forall id ensures id in Tracked(ledger, m) <==> Puts(m, id) || (InFlight(inflight, before, id) && !Takes(m, id)) {
      LedgerClosedForm(inflight, before, id);
      TrackedSays(ledger, m, id);
    }
    forall id ensures id in ledger <==> InFlight(inflight, before, id) {
      LedgerClosedForm(inflight, before, id);
    }
    forall id ensures !(Puts(m, id) && Takes(m, id)) {
    }
  }

  /** Consecutive Queries of one client, each with what its select picked: the record they leave. */
  function After(c: Cli, queries: seq<seq<Event>>): Cli {
    if queries == [] then c else Exec(Start(After(c, queries[..|queries| - 1])), queries[|queries| - 1], 0).s.cli
  }

  /** What they heard. */
  function AllHeard(c: Cli, queries: seq<seq<Event>>): seq<Message> {
    if queries == [] then []
    else
      var front, events := queries[..|queries| - 1], queries[|queries| - 1];
      var x := Exec(Start(After(c, front)), events, 0);
      AllHeard(c, front) + Heard(events[..x.next], x.outcome)
  }

  lemma {:induction false} TrackConcat(inflight: set<string>, a: seq<Message>, b: seq<Message>)
    ensures TrackAll(inflight, a + b) == TrackAll(TrackAll(inflight, a), b)
  {
    if b == [] {
      assert a + b == a;
    } else {
      TrackConcat(inflight, a, b[..|b| - 1]);
      assert (a + b)[..|a + b| - 1] == a + b[..|b| - 1];
    }
  }

  /** From Query to Query the ledger is the closed form over all that was heard: an agent is tracked exactly when
      some message heard put it in flight and none heard since took it off, whichever Queries they came in. */
  lemma {:induction false} ClientLedger(c: Cli, queries: seq<seq<Event>>, id: string)
    ensures var h := AllHeard(c, queries);
      After(c, queries).inflight == TrackAll(c.inflight, h)
        && (id in After(c, queries).inflight <==> InFlight(c.inflight, h, id))
  {
    if queries != [] {
      var front, events := queries[..|queries| - 1], queries[|queries| - 1];
      var before := After(c, front);
      var x := Exec(Start(before), events, 0);
      ClientLedger(c, front, id);
      QueryKeeps(before, events);
      TrackConcat(c.inflight, AllHeard(c, front), Heard(events[..x.next], x.outcome));
    }
    LedgerClosedForm(c.inflight, AllHeard(c, queries), id);
  }

  lemma AfterOne(c: Cli, events: seq<Event>)
    ensures After(c, [events]) == Exec(Start(c), events, 0).s.cli
  {
    assert [events][..|[events]| - 1] == [];
  }

  /** A client that stops a Query at the start of an agent never tracks it, and its next Query ends at its first
      result with the agent still out. */
  lemma {:induction false} StoppedMisses(id: string)
    ensures var first, next := [Received(TaskStarted(id, "local_agent"), false)], [Received(Result, true)];
      var c := After(NEW_CLI, [first]);
      && Exec(Start(NEW_CLI), first, 0).outcome == CallerStopped
      && TrackAll({}, Messages(first)) == {id} && c.inflight == {}
      && Exec(Start(c), next, 0).outcome == AtResult
  {
    var first := [Received(TaskStarted(id, "local_agent"), false)];
    assert Exec(Start(NEW_CLI), first, 0).s == Start(NEW_CLI);
    AfterOne(NEW_CLI, first);
    MessagesStep(first, 0);
    assert first[..1] == first && first[..0] == [];
    assert Messages(first) == [TaskStarted(id, "local_agent")];
    assert [TaskStarted(id, "local_agent")][..0] == [];
  }

  // When the ceiling is armed.

  /** The event neither reports a state nor is a ceiling firing: it leaves an armed ceiling armed. */
  predicate Quiet(e: Event) {
    !e.CeilingFired? && !(e.Received? && e.msg.StateChanged?)
  }

  ghost predicate SomeInFlight(inflight: set<string>, h: seq<Message>) {
    exists id :: InFlight(inflight, h, id)
  }

  /** The i-th event arms the ceiling: a result, or a message after one that takes the last agent off. */
  ghost predicate Arms(c: Cli, events: seq<Event>, i: nat)
    requires i < |events|
  {
    var before := Messages(events[..i]);
    events[i].Received?
      && (events[i].msg == Result
          || (HasResult(before)
              && SomeInFlight(c.inflight, before) && !SomeInFlight(c.inflight, before + [events[i].msg])))
  }

  /** Some event armed the ceiling, and no state came and no ceiling fired since. */
  ghost predicate ArmedBy(c: Cli, events: seq<Event>) {
    exists i :: 0 <= i < |events| && Arms(c, events, i) && forall j :: i < j < |events| ==> Quiet(events[j])
  }

  lemma NoneInFlight(inflight: set<string>, h: seq<Message>)
    ensures TrackAll(inflight, h) == {} <==> !SomeInFlight(inflight, h)
  {
    forall id ensures id in TrackAll(inflight, h) <==> InFlight(inflight, h, id) {
      LedgerClosedForm(inflight, h, id);
    }
    if TrackAll(inflight, h) != {} {
      var id :| id in TrackAll(inflight, h);
      assert InFlight(inflight, h, id);
    }
  }

  lemma ArmsFront(c: Cli, events: seq<Event>, e: Event, i: nat)
    requires i < |events|
    ensures Arms(c, events + [e], i) == Arms(c, events, i)
  {
    assert (events + [e])[..i] == events[..i];
  }

  lemma ArmedByEnd(c: Cli, events: seq<Event>, e: Event)
    ensures ArmedBy(c, events + [e]) <==> Arms(c, events + [e], |events|) || (Quiet(e) && ArmedBy(c, events))
  {
    var all := events + [e];
    if i :| 0 <= i < |events| && Arms(c, all, i) && forall j :: i < j < |all| ==> Quiet(all[j]) {
      ArmsFront(c, events, e, i);
      assert all[|events|] == e;
      assert forall j :: i < j < |events| ==> all[j] == events[j];
    }
    if Quiet(e) && ArmedBy(c, events) {
      var i :| 0 <= i < |events| && Arms(c, events, i) && forall j :: i < j < |events| ==> Quiet(events[j]);
      ArmsFront(c, events, e, i);
      assert forall j :: i < j < |all| ==> Quiet(all[j]);
    }
  }

  /** An armed ceiling has a result before it. */
  lemma ArmedAfterResult(c: Cli, events: seq<Event>)
    requires ArmedBy(c, events)
    ensures HasResult(Messages(events))
  {
    var i :| 0 <= i < |events| && Arms(c, events, i) && forall j :: i < j < |events| ==> Quiet(events[j]);
    ResultStays(events, i + 1);
    MessagesStep(events, i);
    if events[i].msg == Result {
      assert Messages(events[..i + 1])[|Messages(events[..i])|] == Result;
    } else {
      HasResultMore(Messages(events[..i]), [events[i].msg]);
    }
  }

  lemma HasResultMore(a: seq<Message>, b: seq<Message>)
    requires HasResult(a)
    ensures HasResult(a + b)
  {
    var k :| 0 <= k < |a| && a[k] == Result;
    assert (a + b)[k] == Result;
  }

  lemma {:induction false} ResultStays(events: seq<Event>, i: nat)
    requires i <= |events|
    ensures HasResult(Messages(events[..i])) ==> HasResult(Messages(events))
    decreases |events|
  {
    if i == |events| {
      assert events[..i] == events;
    } else {
      var front := events[..|events| - 1];
      assert front[..i] == events[..i];
      ResultStays(front, i);
      if HasResult(Messages(front)) {
        HasResultMore(Messages(front), MessageIn(events[|events| - 1]));
      }
    }
  }

  /** The state is what the events consumed say. */
  ghost predicate StateFits(c: Cli, events: seq<Event>, s: RunState) {
    && s.cli.inflight == TrackAll(c.inflight, Messages(events))
    && s.resultSeen == HasResult(Messages(events))
    && s.armed == ArmedBy(c, events)
  }

  lemma MessagesEnd(events: seq<Event>, e: Event)
    ensures Messages(events + [e]) == Messages(events) + MessageIn(e)
  {
    assert (events + [e])[..|events|] == events;
  }

  lemma TrackEnd(inflight: set<string>, h: seq<Message>, m: Message)
    ensures TrackAll(inflight, h + [m]) == Tracked(TrackAll(inflight, h), m)
  {
    assert (h + [m])[..|h|] == h;
  }

  lemma HasResultEnd(h: seq<Message>, m: Message)
    ensures HasResult(h + [m]) <==> HasResult(h) || m == Result
  {
    assert (h + [m])[|h|] == m;
    if HasResult(h) {
      HasResultMore(h, [m]);
    }
    if k :| 0 <= k < |h + [m]| && (h + [m])[k] == Result && m != Result {
      assert h[k] == Result;
    }
  }

  lemma ArmsLast(c: Cli, events: seq<Event>, m: Message, goOn: bool)
    ensures var before := TrackAll(c.inflight, Messages(events));
      Arms(c, events + [Received(m, goOn)], |events|) <==>
        m == Result || (HasResult(Messages(events)) && before != {} && Tracked(before, m) == {})
  {
    var h := Messages(events);
    assert (events + [Received(m, goOn)])[..|events|] == events;
    NoneInFlight(c.inflight, h);
    NoneInFlight(c.inflight, h + [m]);
    TrackEnd(c.inflight, h, m);
  }

  lemma MessageFits(c: Cli, events: seq<Event>, s: RunState, m: Message, goOn: bool)
    requires StateFits(c, events, s) && Step(s, Received(m, goOn)).1 == Waiting
    ensures StateFits(c, events + [Received(m, goOn)], Step(s, Received(m, goOn)).0)
  {
    MessagesEnd(events, Received(m, goOn));
    TrackEnd(c.inflight, Messages(events), m);
    HasResultEnd(Messages(events), m);
    ArmsLast(c, events, m, goOn);
    ArmedByEnd(c, events, Received(m, goOn));
    if ArmedBy(c, events) {
      ArmedAfterResult(c, events);
    }
  }

  lemma EventFits(c: Cli, events: seq<Event>, s: RunState, e: Event)
    requires StateFits(c, events, s) && Step(s, e).1 == Waiting
    ensures StateFits(c, events + [e], Step(s, e).0)
  {
    if e.Received? {
      MessageFits(c, events, s, e.msg, e.goOn);
    } else {
      MessagesEnd(events, e);
      assert Messages(events) + [] == Messages(events);
      ArmedByEnd(c, events, e);
    }
  }

  /** The ceiling was armed when it fired last, and no agent was in flight. */
  ghost predicate Spent(c: Cli, events: seq<Event>)
    requires |events| > 0
  {
    var before := events[..|events| - 1];
    ArmedBy(c, before) && !SomeInFlight(c.inflight, Messages(before))
  }

  lemma CeilingFits(c: Cli, events: seq<Event>, s: RunState, e: Event)
    requires StateFits(c, events, s) && Step(s, e).1 == AtCeiling
    ensures Spent(c, events + [e])
  {
    assert (events + [e])[..|events + [e]| - 1] == events;
    NoneInFlight(c.inflight, Messages(events));
  }

  lemma {:induction false} ExecFits(c: Cli, before: seq<Event>, s: RunState, events: seq<Event>, i: nat)
    requires i <= |events| && before == events[..i] && StateFits(c, before, s)
    ensures var x := Exec(s, events, i);
      && (x.outcome == Waiting ==> StateFits(c, events, x.s))
      && (x.outcome == AtCeiling ==> i < x.next && Spent(c, events[..x.next]))
    decreases |events| - i
  {
    if i == |events| {
      assert before == events;
    } else {
      ExecStep(s, events, i);
      assert events[..i + 1] == before + [events[i]];
      if Step(s, events[i]).1 == Waiting {
        EventFits(c, before, s, events[i]);
        ExecFits(c, events[..i + 1], Step(s, events[i]).0, events, i + 1);
      } else if Step(s, events[i]).1 == AtCeiling {
        CeilingFits(c, before, s, events[i]);
      }
    }
  }

  lemma StartFits(c: Cli)
    ensures StateFits(c, [], Start(c))
  {
  }

  /** In every waiting state the ceiling is armed exactly when a result came, or a message after one took the last
      agent off, and since then no state was reported and no ceiling fired. */
  lemma {:induction false} ArmedIff(c: Cli, events: seq<Event>)
    requires Exec(Start(c), events, 0).outcome == Waiting
    ensures Exec(Start(c), events, 0).s.armed <==> ArmedBy(c, events)
  {
    StartFits(c);
    assert events[..0] == [];
    ExecFits(c, [], Start(c), events, 0);
  }

  /** So a run ends at its ceiling only if the ceiling was armed so and no agent was in flight when it fired. */
  lemma {:induction false} CeilingEnds(c: Cli, events: seq<Event>)
    requires Exec(Start(c), events, 0).outcome == AtCeiling
    ensures var x := Exec(Start(c), events, 0); 0 < x.next && Spent(c, events[..x.next])
  {
    StartFits(c);
    assert events[..0] == [];
    ExecFits(c, [], Start(c), events, 0);
  }

  lemma {:induction false} ExecMore(s: RunState, events: seq<Event>, e: Event, i: nat)
    requires i <= |events| && Exec(s, events, i).outcome == Waiting
    ensures Exec(s, events + [e], i).outcome == Step(Exec(s, events, i).s, e).1
    decreases |events| - i
  {
    if i < |events| {
      ExecMore(Step(s, events[i]).0, events, e, i + 1);
      assert (events + [e])[i] == events[i];
    } else {
      ExecStep(s, events + [e], i);
    }
  }

  /** And a ceiling that fires in a waiting state ends the run exactly then. */
  lemma {:induction false} CeilingEndsIff(c: Cli, events: seq<Event>)
    requires Exec(Start(c), events, 0).outcome == Waiting
    ensures Exec(Start(c), events + [CeilingFired], 0).outcome == AtCeiling
      <==> ArmedBy(c, events) && !SomeInFlight(c.inflight, Messages(events))
  {
    StartFits(c);
    assert events[..0] == [];
    ExecFits(c, [], Start(c), events, 0);
    ExecMore(Start(c), events, CeilingFired, 0);
    NoneInFlight(c.inflight, Messages(events));
  }
}
