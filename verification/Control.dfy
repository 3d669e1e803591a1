/** Control requests and their responses: the pendingCtrl table of domains/agent/session_manager.go, shared
    by any number of callers of sendControlRequest and one read loop. Each step that another goroutine can see
    between is a step of its own. */
module Control {
  import opened Json
  import opened Seqs

  /** A response body or error text, as it came off the wire. */
  type Body = string

  datatype Return = Got(body: Body) | CancelledErr | CtxErr | SendErr

  datatype Caller = Started | Stored | Waiting | Leaving(ret: Return) | Returned(ret: Return)

  /** One call of sendControlRequest and its one-slot channel: `slot` is what the channel holds. */
  datatype Call = Call(suffix: string, slot: Option<Body>, closed: bool, ctxDone: bool, caller: Caller)

  /** The read loop. While it drains, `start` is what the table held when Range began, `seen` every entry the
      table has held since, and `visited` the ids Range has called its function with. */
  datatype Reader =
    | Idle
    | Loaded(k: nat, id: string, body: Body)
    | Deleted(k: nat)
    | Draining(start: map<string, nat>, seen: map<string, nat>, visited: set<string>, at: Visit)
    | Stopped(drained: map<string, nat>)

  datatype Visit = Between | ToClose(k: nat) | ToDelete(id: string)

  /** `handled` is history: the responses put, or dropped because the slot was full, with their ids. */
  datatype State = State(calls: seq<Call>, table: map<string, nat>, reader: Reader, handled: seq<(string, Body)>,
      panicked: bool)

  const INIT := State([], map[], Idle, [], false)

  // Request ids: shared/reqid/reqid.go.

  function Decimal(n: nat): string {
    (if n < 10 then "" else Decimal(n / 10)) + ["0123456789"[n % 10]]
  }

  function RequestId(n: nat, suffix: string): string {
    "req_" + Decimal(n) + "_" + suffix
  }

  function Value(s: string): nat {
    if s == "" then 0 else 10 * Value(s[..|s| - 1]) + if '0' <= s[|s| - 1] then s[|s| - 1] as int - '0' as int else 0
  }

  lemma {:induction false} DecimalParses(n: nat)
    ensures Value(Decimal(n)) == n && '_' !in Decimal(n)
  {
    var last := ["0123456789"[n % 10]];
    var front := if n < 10 then "" else Decimal(n / 10);
    if n >= 10 {
      DecimalParses(n / 10);
    }
    assert (front + last)[..|front|] == front;
  }

  /** Ids of different calls differ, whatever the random suffixes. */
  lemma {:induction false} RequestIdsDiffer(n: nat, m: nat, x: string, y: string)
    requires RequestId(n, x) == RequestId(m, y)
    ensures n == m
  {
    var s, t := Decimal(n) + "_" + x, Decimal(m) + "_" + y;
    assert RequestId(n, x) == "req_" + s && RequestId(m, y) == "req_" + t;
    assert RequestId(n, x)[4..] == s && RequestId(m, y)[4..] == t;
    DecimalParses(n);
    DecimalParses(m);
    BeforeSeparator(Decimal(n), '_', x);
    BeforeSeparator(Decimal(m), '_', y);
  }

  /** The id of the k-th call: the counter starts at one. */
  function IdOf(calls: seq<Call>, k: nat): string
    requires k < |calls|
  {
    RequestId(k + 1, calls[k].suffix)
  }

  datatype Label =
    | New(suffix: string)
    | Store(k: nat)
    | SendOk(k: nat)
    | SendFails(k: nat)
    | CtxEnds(k: nat)
    | Take(k: nat)
    | TakeClosed(k: nat)
    | SeeCtx(k: nat)
    | Leave(k: nat)
    | Response(id: string, body: Body)
    | Put
    | Cancel(id: string)
    | CloseCancelled
    | ReceiveFails
    | Visit(id: string)
    | CloseVisited
    | DeleteVisited
    | RangeEnds
    | Stops

  predicate IsCaller(l: Label) {
    l.Store? || l.SendOk? || l.SendFails? || l.CtxEnds? || l.Take? || l.TakeClosed? || l.SeeCtx? || l.Leave?
  }

  /** What a caller's step does to its own call: None where it cannot happen now. */
  function Local(x: Call, l: Label): Option<Call> {
    match l
    case Store(_) => if x.caller == Started then Some(x.(caller := Stored)) else None
    case SendOk(_) => if x.caller == Stored then Some(x.(caller := Waiting)) else None
    case SendFails(_) => if x.caller == Stored then Some(x.(caller := Leaving(SendErr))) else None
    case CtxEnds(_) => Some(x.(ctxDone := true))
    case Take(_) =>
      if x.caller == Waiting && x.slot.Some? then Some(x.(slot := None, caller := Leaving(Got(x.slot.value)))) else None
    case TakeClosed(_) =>
      if x.caller == Waiting && x.slot == None && x.closed then Some(x.(caller := Leaving(CancelledErr))) else None
    case SeeCtx(_) => if x.caller == Waiting && x.ctxDone then Some(x.(caller := Leaving(CtxErr))) else None
    case Leave(_) => if x.caller.Leaving? then Some(x.(caller := Returned(x.caller.ret))) else None
    case _ => None
  }

  /** A store while Range runs may be visited by it. */
  function Noted(r: Reader, id: string, k: nat): Reader {
    if r.Draining? then r.(seen := r.seen[id := k]) else r
  }

  function CallerStep(s: State, l: Label): State
    requires IsCaller(l)
  {
    if l.k < |s.calls| && Local(s.calls[l.k], l).Some? then
      var t := s.(calls := s.calls[l.k := Local(s.calls[l.k], l).value]);
      var id := IdOf(s.calls, l.k);
      if l.Store? then t.(table := s.table[id := l.k], reader := Noted(s.reader, id, l.k))
      else if l.Leave? then t.(table := s.table - {id})
      else t
    else s
  }

  /** `close`: a second one panics. */
  function CloseChannel(s: State, k: nat): State {
    if k < |s.calls| then
      s.(calls := s.calls[k := s.calls[k].(closed := true)], panicked := s.panicked || s.calls[k].closed)
    else s
  }

  /** A send that does not wait: a full slot drops it, a closed channel panics. */
  function TrySend(s: State, k: nat, id: string, body: Body): State {
    if k < |s.calls| then
      var x := s.calls[k];
      s.(calls := s.calls[k := if x.slot == None && !x.closed then x.(slot := Some(body)) else x],
         panicked := s.panicked || x.closed,
         handled := s.handled + [(id, body)])
    else s
  }

  function ReaderStep(s: State, l: Label): State {
    match l
    case Response(id, body) =>
      if s.reader == Idle && id in s.table then s.(reader := Loaded(s.table[id], id, body)) else s
    case Put => if s.reader.Loaded? then TrySend(s, s.reader.k, s.reader.id, s.reader.body).(reader := Idle) else s
    case Cancel(id) =>
      if s.reader == Idle && id in s.table then s.(reader := Deleted(s.table[id]), table := s.table - {id}) else s
    case CloseCancelled => if s.reader.Deleted? then CloseChannel(s, s.reader.k).(reader := Idle) else s
    case ReceiveFails => if s.reader == Idle then s.(reader := Draining(s.table, s.table, {}, Between)) else s
    case Visit(id) =>
      if s.reader.Draining? && s.reader.at == Between && id in s.reader.seen && id !in s.reader.visited
      then s.(reader := s.reader.(visited := s.reader.visited + {id}, at := ToClose(s.reader.seen[id]))) else s
    case CloseVisited =>
      if s.reader.Draining? && s.reader.at.ToClose? && s.reader.at.k < |s.calls|
      then CloseChannel(s, s.reader.at.k).(reader := s.reader.(at := ToDelete(IdOf(s.calls, s.reader.at.k)))) else s
    case DeleteVisited =>
      if s.reader.Draining? && s.reader.at.ToDelete?
      then s.(table := s.table - {s.reader.at.id}, reader := s.reader.(at := Between)) else s
    case RangeEnds =>
      if s.reader.Draining? && s.reader.at == Between && s.reader.start.Keys * s.table.Keys <= s.reader.visited
      then s.(reader := Stopped(s.reader.start)) else s
    case Stops => if s.reader == Idle then s.(reader := Stopped(map[])) else s
    case _ => s
  }

  /** One step; a step that cannot happen now changes nothing. */
  function Step(s: State, l: Label): State {
    if l.New? then s.(calls := s.calls + [Call(l.suffix, None, false, false, Started)])
    else if IsCaller(l) then CallerStep(s, l)
    else ReaderStep(s, l)
  }

  function Exec(s: State, ls: seq<Label>): State {
    if ls == [] then s else Step(Exec(s, ls[..|ls| - 1]), ls[|ls| - 1])
  }

  /** The first response handled for an id. */
  function First(handled: seq<(string, Body)>, id: string): Option<Body> {
    if handled == [] then None
    else
      var first := First(handled[..|handled| - 1], id);
      if first.Some? then first
      else if handled[|handled| - 1].0 == id then Some(handled[|handled| - 1].1) else None
  }

  // The invariant.

  /** What is known of a closed channel, by where the reader is. */
  predicate ClosedFits(s: State, id: string, k: nat) {
    match s.reader
    case Idle => id !in s.table
    case Loaded(j, _, _) => id !in s.table && j != k
    case Deleted(j) => id !in s.table && j != k
    case Draining(_, seen, visited, at) => (id in seen ==> id in visited) && at != ToClose(k)
    case Stopped(_) => true
  }

  /** What Range has done so far about a call that was in the table when it began. */
  predicate DrainFits(s: State, id: string, k: nat)
    requires k < |s.calls|
  {
    var x := s.calls[k];
    match s.reader
    case Draining(start, seen, visited, at) =>
      && (id in s.table ==> id in seen)
      && (id in visited ==> id in seen && (x.closed || at == ToClose(k)))
      && (id in start ==> id in s.table || id in visited || x.caller.Returned?)
      && (at == ToClose(k) ==> id in visited)
    case Stopped(drained) => id in drained ==> x.closed || x.caller.Returned?
    case _ => true
  }

  predicate CallerFits(x: Call, first: Option<Body>, inTable: bool) {
    && (inTable ==> x.caller != Started && !x.caller.Returned?)
    && (if (x.caller.Leaving? || x.caller.Returned?) && x.caller.ret.Got? then first == Some(x.caller.ret.body)
       else x.slot == first)
    && ((x.caller.Leaving? || x.caller.Returned?) && x.caller.ret == CancelledErr ==> x.closed && first == None)
  }

  predicate CallFits(s: State, k: nat)
    requires k < |s.calls|
  {
    var id := IdOf(s.calls, k);
    && CallerFits(s.calls[k], First(s.handled, id), id in s.table)
    && (s.calls[k].closed ==> ClosedFits(s, id, k))
    && DrainFits(s, id, k)
    && (s.calls[k].caller == Started ==> !s.calls[k].closed && !(s.reader.Draining? && id in s.reader.seen))
  }

  /** The entries a drain has dealt with or may yet. */
  function Noticed(r: Reader): map<string, nat> {
    match r
    case Draining(_, seen, _, _) => seen
    case Stopped(drained) => drained
    case _ => map[]
  }

  predicate EntryFits(calls: seq<Call>, m: map<string, nat>, id: string)
    requires id in m
  {
    m[id] < |calls| && IdOf(calls, m[id]) == id
  }

  predicate SubMap(m: map<string, nat>, n: map<string, nat>) {
    forall id :: id in m ==> id in n && n[id] == m[id]
  }

  predicate ReaderFits(s: State) {
    match s.reader
    case Loaded(k, id, _) => k < |s.calls| && s.calls[k].caller != Started && id == IdOf(s.calls, k)
    case Deleted(k) => k < |s.calls| && s.calls[k].caller != Started && IdOf(s.calls, k) !in s.table
    case Draining(start, seen, visited, at) =>
      SubMap(start, seen) && visited <= seen.Keys && (at.ToClose? ==> at.k < |s.calls|)
        && (at.ToDelete? ==> at.id in visited)
    case _ => true
  }

  ghost predicate Known(calls: seq<Call>, id: string) {
    exists k :: 0 <= k < |calls| && IdOf(calls, k) == id
  }

  ghost predicate Inv(s: State) {
    && !s.panicked
    && (forall i :: 0 <= i < |s.handled| ==> Known(s.calls, s.handled[i].0))
    && ReaderFits(s)
    && (forall id {:trigger EntryFits(s.calls, s.table, id)} :: id in s.table ==> EntryFits(s.calls, s.table, id))
    && (forall id {:trigger EntryFits(s.calls, Noticed(s.reader), id)} ::
       id in Noticed(s.reader) ==> EntryFits(s.calls, Noticed(s.reader), id))
    && forall k {:trigger CallFits(s, k)} :: 0 <= k < |s.calls| ==> CallFits(s, k)
  }

  lemma {:induction false} IdsDiffer(calls: seq<Call>)
    ensures forall j, k :: 0 <= j < |calls| && 0 <= k < |calls| && IdOf(calls, j) == IdOf(calls, k) ==> j == k
  {
    forall j, k | 0 <= j < |calls| && 0 <= k < |calls| && IdOf(calls, j) == IdOf(calls, k) ensures j == k {
      RequestIdsDiffer(j + 1, k + 1, calls[j].suffix, calls[k].suffix);
    }
  }

  /** Ids stay: no step changes a call's suffix. */
  lemma {:induction false} SameIds(calls: seq<Call>, later: seq<Call>)
    requires |calls| <= |later|
    requires forall k {:trigger later[k]} :: 0 <= k < |calls| ==> later[k].suffix == calls[k].suffix
    ensures forall k :: 0 <= k < |calls| ==> IdOf(later, k) == IdOf(calls, k)
  {
  }

  lemma {:induction false} CallerOwn(s: State, l: Label)
    requires Inv(s) && IsCaller(l) && l.k < |s.calls| && Local(s.calls[l.k], l).Some?
    ensures CallFits(CallerStep(s, l), l.k)
  {
    assert CallFits(s, l.k);
    var t := CallerStep(s, l);
    SameIds(s.calls, t.calls);
  }

  lemma {:induction false} CallerOther(s: State, l: Label, j: nat)
    requires Inv(s) && IsCaller(l) && l.k < |s.calls| && Local(s.calls[l.k], l).Some? && j < |s.calls| && j != l.k
    ensures CallFits(CallerStep(s, l), j)
  {
    assert CallFits(s, j);
    var t := CallerStep(s, l);
    SameIds(s.calls, t.calls);
    IdsDiffer(s.calls);
  }

  ghost predicate TablesOk(s: State) {
    && (forall id {:trigger EntryFits(s.calls, s.table, id)} :: id in s.table ==> EntryFits(s.calls, s.table, id))
    && (forall id {:trigger EntryFits(s.calls, Noticed(s.reader), id)} ::
       id in Noticed(s.reader) ==> EntryFits(s.calls, Noticed(s.reader), id))
  }

  /** The entries still fit when the table loses some or gains the k-th call, and calls keep their ids. */
  lemma {:induction false} MapFits(calls: seq<Call>, m: map<string, nat>, later: seq<Call>, n: map<string, nat>, k: nat)
    requires forall id {:trigger EntryFits(calls, m, id)} :: id in m ==> EntryFits(calls, m, id)
    requires |calls| <= |later|
    requires forall j {:trigger later[j]} :: 0 <= j < |calls| ==> later[j].suffix == calls[j].suffix
    requires forall id :: id in n ==> (id in m && n[id] == m[id]) || (k < |calls| && id == IdOf(calls, k) && n[id] == k)
    ensures forall id {:trigger EntryFits(later, n, id)} :: id in n ==> EntryFits(later, n, id)
  {
    SameIds(calls, later);
    forall id | id in n ensures EntryFits(later, n, id) {
      if id in m && n[id] == m[id] {
        assert EntryFits(calls, m, id);
      }
    }
  }

  lemma {:induction false} CallerInv(s: State, l: Label)
    requires Inv(s) && IsCaller(l)
    ensures Inv(CallerStep(s, l))
  {
    if l.k < |s.calls| && Local(s.calls[l.k], l).Some? {
      var t := CallerStep(s, l);
      CallerOwn(s, l);
      SameKnown(s.calls, t.calls, s.handled);
      forall j | 0 <= j < |t.calls| ensures CallFits(t, j) {
        if j != l.k {
          CallerOther(s, l, j);
        }
      }
      CallerTables(s, l);
    }
  }

  lemma {:induction false} CallerTables(s: State, l: Label)
    requires Inv(s) && IsCaller(l) && l.k < |s.calls| && Local(s.calls[l.k], l).Some?
    ensures TablesOk(CallerStep(s, l)) && ReaderFits(CallerStep(s, l))
  {
    var t := CallerStep(s, l);
    assert CallFits(s, l.k);
    SameIds(s.calls, t.calls);
    IdsDiffer(s.calls);
    MapFits(s.calls, s.table, t.calls, t.table, l.k);
    MapFits(s.calls, Noticed(s.reader), t.calls, Noticed(t.reader), l.k);
  }

  lemma {:induction false} UnknownId(calls: seq<Call>, m: map<string, nat>, suffix: string)
    requires forall id {:trigger EntryFits(calls, m, id)} :: id in m ==> EntryFits(calls, m, id)
    ensures RequestId(|calls| + 1, suffix) !in m
  {
    var id := RequestId(|calls| + 1, suffix);
    if id in m {
      assert EntryFits(calls, m, id);
      RequestIdsDiffer(m[id] + 1, |calls| + 1, calls[m[id]].suffix, suffix);
    }
  }

  lemma {:induction false} UnknownFirst(calls: seq<Call>, handled: seq<(string, Body)>, suffix: string)
    requires forall i :: 0 <= i < |handled| ==> Known(calls, handled[i].0)
    ensures First(handled, RequestId(|calls| + 1, suffix)) == None
  {
    if handled != [] {
      UnknownFirst(calls, handled[..|handled| - 1], suffix);
      var k :| 0 <= k < |calls| && IdOf(calls, k) == handled[|handled| - 1].0;
      if IdOf(calls, k) == RequestId(|calls| + 1, suffix) {
        RequestIdsDiffer(k + 1, |calls| + 1, calls[k].suffix, suffix);
      }
    }
  }

  lemma {:induction false} SameKnown(calls: seq<Call>, later: seq<Call>, handled: seq<(string, Body)>)
    requires forall i :: 0 <= i < |handled| ==> Known(calls, handled[i].0)
    requires |calls| <= |later|
    requires forall k {:trigger later[k]} :: 0 <= k < |calls| ==> later[k].suffix == calls[k].suffix
    ensures forall i :: 0 <= i < |handled| ==> Known(later, handled[i].0)
  {
    forall i | 0 <= i < |handled| ensures Known(later, handled[i].0) {
      var k :| 0 <= k < |calls| && IdOf(calls, k) == handled[i].0;
      assert IdOf(later, k) == handled[i].0;
    }
  }

  lemma {:induction false} NewInv(s: State, suffix: string)
    requires Inv(s)
    ensures Inv(Step(s, New(suffix)))
  {
    var t := Step(s, New(suffix));
    NewCallsFit(s, suffix);
    SameKnown(s.calls, t.calls, s.handled);
    MapFits(s.calls, s.table, t.calls, t.table, 0);
    MapFits(s.calls, Noticed(s.reader), t.calls, Noticed(t.reader), 0);
  }

  lemma {:induction false} NewCallsFit(s: State, suffix: string)
    requires Inv(s)
    ensures var t := Step(s, New(suffix)); forall j {:trigger CallFits(t, j)} :: 0 <= j < |t.calls| ==> CallFits(t, j)
  {
    var t := Step(s, New(suffix));
    UnknownId(s.calls, s.table, suffix);
    UnknownId(s.calls, Noticed(s.reader), suffix);
    UnknownFirst(s.calls, s.handled, suffix);
    forall j | 0 <= j < |t.calls| ensures CallFits(t, j) {
      if j < |s.calls| {
        NewKeeps(s, suffix, j);
      } else {
        NewFits(s, suffix);
      }
    }
  }

  lemma {:induction false} NewKeeps(s: State, suffix: string, j: nat)
    requires Inv(s) && j < |s.calls|
    ensures CallFits(Step(s, New(suffix)), j)
  {
    assert CallFits(s, j);
  }

  lemma {:induction false} NewFits(s: State, suffix: string)
    requires ReaderFits(s) && First(s.handled, RequestId(|s.calls| + 1, suffix)) == None
    requires RequestId(|s.calls| + 1, suffix) !in s.table && RequestId(|s.calls| + 1, suffix) !in Noticed(s.reader)
    ensures CallFits(Step(s, New(suffix)), |s.calls|)
  {
  }

  lemma {:induction false} FirstStep(handled: seq<(string, Body)>, e: (string, Body), id: string)
    ensures First(handled, id).Some? ==> First(handled + [e], id) == First(handled, id)
    ensures First(handled, id).None? ==> First(handled + [e], id) == if e.0 == id then Some(e.1) else None
  {
    assert (handled + [e])[..|handled|] == handled;
  }

  lemma {:induction false} PutInv(s: State)
    requires Inv(s) && s.reader.Loaded?
    ensures Inv(ReaderStep(s, Put))
  {
    var t := ReaderStep(s, Put);
    var k := s.reader.k;
    SameKnown(s.calls, t.calls, s.handled);
    assert IdOf(t.calls, k) == s.reader.id;
    SameIds(s.calls, t.calls);
    IdsDiffer(s.calls);
    MapFits(s.calls, s.table, t.calls, t.table, 0);
    assert CallFits(s, k);
    forall j | 0 <= j < |t.calls| ensures CallFits(t, j) {
      assert CallFits(s, j);
      FirstStep(s.handled, (IdOf(s.calls, k), s.reader.body), IdOf(s.calls, j));
    }
  }

  lemma {:induction false} LookupInv(s: State, l: Label)
    requires Inv(s) && (l.Response? || l.Cancel? || l.ReceiveFails? || l.Stops?)
    ensures Inv(ReaderStep(s, l))
  {
    var t := ReaderStep(s, l);
    IdsDiffer(s.calls);
    if l.Response? || l.Cancel? {
      if l.id in s.table {
        assert EntryFits(s.calls, s.table, l.id);
        assert CallFits(s, s.table[l.id]);
      }
    }
    MapFits(s.calls, s.table, t.calls, t.table, 0);
    forall j | 0 <= j < |t.calls| ensures CallFits(t, j) {
      assert CallFits(s, j);
      if IdOf(s.calls, j) in s.table {
        assert EntryFits(s.calls, s.table, IdOf(s.calls, j));
      }
    }
  }

  lemma {:induction false} CloseInv(s: State)
    requires Inv(s) && s.reader.Deleted?
    ensures Inv(ReaderStep(s, CloseCancelled))
  {
    var t := ReaderStep(s, CloseCancelled);
    SameKnown(s.calls, t.calls, s.handled);
    SameIds(s.calls, t.calls);
    IdsDiffer(s.calls);
    assert CallFits(s, s.reader.k);
    MapFits(s.calls, s.table, t.calls, t.table, 0);
    forall j | 0 <= j < |t.calls| ensures CallFits(t, j) {
      assert CallFits(s, j);
    }
  }

  lemma {:induction false} VisitInv(s: State, l: Label)
    requires Inv(s) && s.reader.Draining? && (l.Visit? || l.RangeEnds?)
    ensures Inv(ReaderStep(s, l))
  {
    var t := ReaderStep(s, l);
    IdsDiffer(s.calls);
    if l.Visit? && l.id in s.reader.seen {
      assert EntryFits(s.calls, Noticed(s.reader), l.id);
    }
    forall j | 0 <= j < |t.calls| ensures CallFits(t, j) {
      assert CallFits(s, j);
      if IdOf(s.calls, j) in s.reader.seen {
        assert EntryFits(s.calls, Noticed(s.reader), IdOf(s.calls, j));
      }
    }
    MapFits(s.calls, s.table, t.calls, t.table, 0);
    MapFits(s.calls, Noticed(s.reader), t.calls, Noticed(t.reader), 0);
  }

  lemma {:induction false} CloseVisitedInv(s: State)
    requires Inv(s) && s.reader.Draining? && s.reader.at.ToClose?
    ensures Inv(ReaderStep(s, CloseVisited))
  {
    var t := ReaderStep(s, CloseVisited);
    SameKnown(s.calls, t.calls, s.handled);
    SameIds(s.calls, t.calls);
    IdsDiffer(s.calls);
    assert CallFits(s, s.reader.at.k);
    MapFits(s.calls, s.table, t.calls, t.table, 0);
    MapFits(s.calls, Noticed(s.reader), t.calls, Noticed(t.reader), 0);
    forall j | 0 <= j < |t.calls| ensures CallFits(t, j) {
      assert CallFits(s, j);
    }
  }

  lemma {:induction false} DeleteVisitedInv(s: State)
    requires Inv(s) && s.reader.Draining? && s.reader.at.ToDelete?
    ensures Inv(ReaderStep(s, DeleteVisited))
  {
    var t := ReaderStep(s, DeleteVisited);
    MapFits(s.calls, Noticed(s.reader), t.calls, Noticed(t.reader), 0);
    MapFits(s.calls, s.table, t.calls, t.table, 0);
    forall j | 0 <= j < |t.calls| ensures CallFits(t, j) {
      assert CallFits(s, j);
    }
  }

  lemma {:induction false} ReaderInv(s: State, l: Label)
    requires Inv(s) && !IsCaller(l) && !l.New?
    ensures Inv(ReaderStep(s, l))
  {
    if l.Put? {
      if s.reader.Loaded? {
        PutInv(s);
      }
    } else if l.CloseCancelled? {
      if s.reader.Deleted? {
        CloseInv(s);
      }
    } else if l.Response? || l.Cancel? || l.ReceiveFails? || l.Stops? {
      LookupInv(s, l);
    } else if s.reader.Draining? {
      DrainInv(s, l);
    }
  }

  lemma {:induction false} DrainInv(s: State, l: Label)
    requires Inv(s) && s.reader.Draining? && (l.Visit? || l.RangeEnds? || l.CloseVisited? || l.DeleteVisited?)
    ensures Inv(ReaderStep(s, l))
  {
    if l.Visit? || l.RangeEnds? {
      VisitInv(s, l);
    } else if l.CloseVisited? && s.reader.at.ToClose? {
      CloseVisitedInv(s);
    } else if l.DeleteVisited? && s.reader.at.ToDelete? {
      DeleteVisitedInv(s);
    }
  }

  lemma {:induction false} StepInv(s: State, l: Label)
    requires Inv(s)
    ensures Inv(Step(s, l))
  {
    if l.New? {
      NewInv(s, l.suffix);
    } else if IsCaller(l) {
      CallerInv(s, l);
    } else {
      ReaderInv(s, l);
    }
  }

  lemma {:induction false} ReachableInv(ls: seq<Label>)
    ensures Inv(Exec(INIT, ls))
  {
    if ls != [] {
      ReachableInv(ls[..|ls| - 1]);
      StepInv(Exec(INIT, ls[..|ls| - 1]), ls[|ls| - 1]);
    }
  }

  // What the protocol promises, in every interleaving of callers and reader.

  /** No channel is closed twice or sent on once closed. */
  lemma {:induction false} NeverPanics(ls: seq<Label>)
    ensures !Exec(INIT, ls).panicked
  {
    ReachableInv(ls);
  }

  /** A caller gets the first response handled for its own id and nothing else, and its id is no other
      call's. It is told "cancelled" only if no response was handled for it: one handled before the
      cancel or the drain wins. */
  lemma {:induction false} FirstResponseWins(ls: seq<Label>, k: nat)
    requires k < |Exec(INIT, ls).calls|
    ensures var s := Exec(INIT, ls);
      var x, first := s.calls[k], First(s.handled, IdOf(s.calls, k));
      && (x.caller.Leaving? || x.caller.Returned? ==>
            match x.caller.ret
            case Got(body) => first == Some(body)
            case CancelledErr => first == None && x.closed
            case _ => true)
      && (x.caller == Waiting && first.Some? ==> Local(x, Take(k)).Some? && Local(x, TakeClosed(k)).None?)
      && forall j :: 0 <= j < |s.calls| && IdOf(s.calls, j) == IdOf(s.calls, k) ==> j == k
  {
    var s := Exec(INIT, ls);
    ReachableInv(ls);
    assert CallFits(s, k);
    IdsDiffer(s.calls);
  }

  /** When Receive fails, every request that was in the table then is released: by the time the read loop
      ends its caller has left or can leave at once, with its response or with "cancelled". */
  lemma {:induction false} DrainReleases(ls: seq<Label>, k: nat)
    requires k < |Exec(INIT, ls).calls|
    ensures var s := Exec(INIT, ls);
      var x := s.calls[k];
      s.reader.Stopped? && IdOf(s.calls, k) in s.reader.drained ==>
        x.caller.Returned?
          || (x.closed && (x.caller == Waiting ==> Local(x, Take(k)).Some? || Local(x, TakeClosed(k)).Some?))
  {
    var s := Exec(INIT, ls);
    ReachableInv(ls);
    assert CallFits(s, k);
  }

  predicate Stranded(s: State, k: nat) {
    s.reader.Stopped? && k < |s.calls| && s.calls[k].caller == Waiting && !s.calls[k].closed && s.calls[k].slot == None
      && !s.calls[k].ctxDone
  }

  lemma {:induction false} StrandedStays(s: State, more: seq<Label>, k: nat)
    requires Stranded(s, k) && CtxEnds(k) !in more
    ensures Stranded(Exec(s, more), k)
  {
    if more != [] {
      assert more[|more| - 1] in more;
      StrandedStays(s, more[..|more| - 1], k);
    }
  }

  // Which responses are handled, and who gets them.

  lemma {:induction false} ExecStep(s: State, ls: seq<Label>, l: Label)
    ensures Exec(s, ls + [l]) == Step(Exec(s, ls), l)
  {
    assert (ls + [l])[..|ls|] == ls;
  }

  lemma {:induction false} ExecTwo(s: State, a: Label, b: Label)
    ensures Exec(s, [a, b]) == Step(Step(s, a), b)
  {
    ExecStep(s, [], a);
    ExecStep(s, [a], b);
    assert [] + [a] == [a] && [a] + [b] == [a, b];
  }

  lemma {:induction false} ExecThen(s: State, a: seq<Label>, b: seq<Label>)
    ensures Exec(s, a + b) == Exec(Exec(s, a), b)
  {
    if b == [] {
      assert a + b == a;
    } else {
      var front, last := b[..|b| - 1], b[|b| - 1];
      ExecThen(s, a, front);
      FrontLast(b);
      Associative(a, front, [last]);
      ExecStep(s, a + front, last);
    }
  }

  /** The step is a response frame whose id the reader finds in the table. */
  predicate Finds(s: State, l: Label) {
    l.Response? && s.reader == Idle && l.id in s.table
  }

  /** The response frame the reader has found and not yet put. */
  function InHand(ls: seq<Label>): Option<(string, Body)> {
    if ls == [] then None
    else
      var front, l := ls[..|ls| - 1], ls[|ls| - 1];
      if Finds(Exec(INIT, front), l) then Some((l.id, l.body)) else if l.Put? then None else InHand(front)
  }

  /** The responses found and then put, in order, as they came off the wire. */
  function Answered(ls: seq<Label>): seq<(string, Body)> {
    if ls == [] then []
    else
      var front, l := ls[..|ls| - 1], ls[|ls| - 1];
      Answered(front) + if l.Put? && InHand(front).Some? then [InHand(front).value] else []
  }

  /** The reader's hand, as its state has it. */
  function Holding(r: Reader): Option<(string, Body)> {
    if r.Loaded? then Some((r.id, r.body)) else None
  }

  lemma {:induction false} StepHandles(s: State, l: Label)
    requires Inv(s)
    ensures var t := Step(s, l);
      && t.handled == s.handled + (if l.Put? && Holding(s.reader).Some? then [Holding(s.reader).value] else [])
      && Holding(t.reader) == if Finds(s, l) then Some((l.id, l.body)) else if l.Put? then None else Holding(s.reader)
  {
  }

  /** Over every run: what has been handled is, in order, the id and the body of every response frame that the reader
      found a request for and then put; and what it is about to put is the frame it found last. */
  lemma {:induction false} HandledAre(ls: seq<Label>)
    ensures var s := Exec(INIT, ls); s.handled == Answered(ls) && Holding(s.reader) == InHand(ls)
  {
    if ls != [] {
      var front, l := ls[..|ls| - 1], ls[|ls| - 1];
      HandledAre(front);
      ReachableInv(front);
      StepHandles(Exec(INIT, front), l);
    }
  }

  /** A waiting request with no response yet gets the next one for its id, body and all. */
  lemma {:induction false} Completes(ls: seq<Label>, k: nat, body: Body)
    requires var s := Exec(INIT, ls);
      && s.reader == Idle && k < |s.calls| && s.calls[k].caller == Waiting
      && IdOf(s.calls, k) in s.table && First(s.handled, IdOf(s.calls, k)) == None
    ensures var s := Exec(INIT, ls);
      var t := Exec(s, [Response(IdOf(s.calls, k), body), Put, Take(k), Leave(k)]);
      k < |t.calls| && t.calls[k].caller == Returned(Got(body)) && IdOf(s.calls, k) !in t.table
  {
    var s := Exec(INIT, ls);
    var id := IdOf(s.calls, k);
    ReachableInv(ls);
    assert CallFits(s, k) && EntryFits(s.calls, s.table, id);
    IdsDiffer(s.calls);
    PutsIn(s, k, id, body);
    var t := Exec(s, [Response(id, body), Put]);
    TakesOut(t, k, body);
    assert [Response(id, body), Put] + [Take(k), Leave(k)] == [Response(id, body), Put, Take(k), Leave(k)];
    ExecThen(s, [Response(id, body), Put], [Take(k), Leave(k)]);
  }

  lemma {:induction false} PutsIn(s: State, k: nat, id: string, body: Body)
    requires s.reader == Idle && k < |s.calls| && id in s.table && s.table[id] == k
    requires s.calls[k].slot == None && !s.calls[k].closed
    ensures var t := Exec(s, [Response(id, body), Put]);
      t.calls == s.calls[k := s.calls[k].(slot := Some(body))] && t.table == s.table
  {
    ExecTwo(s, Response(id, body), Put);
  }

  lemma {:induction false} TakesOut(s: State, k: nat, body: Body)
    requires k < |s.calls| && s.calls[k].caller == Waiting && s.calls[k].slot == Some(body)
    ensures var t := Exec(s, [Take(k), Leave(k)]);
      && t.calls == s.calls[k := s.calls[k].(slot := None, caller := Returned(Got(body)))]
      && t.table == s.table - {IdOf(s.calls, k)}
  {
    ExecTwo(s, Take(k), Leave(k));
    var x := s.calls[k].(slot := None, caller := Leaving(Got(body)));
    assert Step(s, Take(k)) == s.(calls := s.calls[k := x]);
    assert IdOf(s.calls[k := x], k) == IdOf(s.calls, k);
  }

  /** A response frame that finds no request changes nothing. */
  lemma {:induction false} StrayResponse(s: State, id: string, body: Body)
    requires id !in s.table
    ensures Step(s, Response(id, body)) == s
  {
  }

  /** What a step does to one caller. */
  lemma {:induction false} StepCaller(s: State, l: Label, k: nat)
    requires k < |s.calls|
    ensures var x, t := s.calls[k], Step(s, l);
      var own := IsCaller(l) && l.k == k && Local(x, l).Some?;
      && k < |t.calls|
      && t.calls[k].caller == (if own then Local(x, l).value.caller else x.caller)
      && (x.ctxDone ==> t.calls[k].ctxDone)
  {
  }

  predicate Left(x: Call, ret: Return) {
    (x.caller.Leaving? || x.caller.Returned?) && x.caller.ret == ret
  }

  /** A caller leaves with its context's error only if its context has ended, and with a failed write only if its
      write has failed. */
  lemma {:induction false} WhyLeft(ls: seq<Label>, k: nat)
    requires k < |Exec(INIT, ls).calls|
    ensures var x := Exec(INIT, ls).calls[k];
      (Left(x, CtxErr) ==> x.ctxDone) && (Left(x, SendErr) ==> SendFails(k) in ls)
  {
    var front, l := ls[..|ls| - 1], ls[|ls| - 1];
    var s := Exec(INIT, front);
    FrontLast(ls);
    if k < |s.calls| {
      WhyLeft(front, k);
      StepCaller(s, l, k);
    } else {
      OnlyNewAdds(s, l);
    }
  }

  // Who is released when the read loop has ended.

  /** The step is a cancel frame taking the id out of the table. */
  predicate Cancels(s: State, l: Label, id: string) {
    l == Label.Cancel(id) && s.reader == Idle && id in s.table
  }

  /** The step is Range calling its function with the id. */
  predicate Visits(s: State, l: Label, id: string) {
    l == Label.Visit(id) && s.reader.Draining? && s.reader.at == Between && id in s.reader.seen
      && id !in s.reader.visited
  }

  predicate WasCancelled(ls: seq<Label>, id: string) {
    ls != [] && (WasCancelled(ls[..|ls| - 1], id) || Cancels(Exec(INIT, ls[..|ls| - 1]), ls[|ls| - 1], id))
  }

  predicate WasVisited(ls: seq<Label>, id: string) {
    ls != [] && (WasVisited(ls[..|ls| - 1], id) || Visits(Exec(INIT, ls[..|ls| - 1]), ls[|ls| - 1], id))
  }

  /** A channel is closed exactly when its id was cancelled or visited and the close is not still to come; only
      such channels are closed, and ids are visited only once Receive has failed. */
  predicate ClosedBy(s: State, k: nat, cancelled: bool, visited: bool)
    requires k < |s.calls|
  {
    && (visited ==> s.reader.Draining? || s.reader.Stopped?)
    && (s.reader == Deleted(k) ==> cancelled) && (ToBeClosed(s.reader, k) ==> visited)
    && (s.calls[k].closed <==> (cancelled && s.reader != Deleted(k)) || (visited && !ToBeClosed(s.reader, k)))
  }

  predicate ToBeClosed(r: Reader, k: nat) {
    r.Draining? && r.at == ToClose(k)
  }

  lemma {:induction false} CallerClosedBy(s: State, l: Label, k: nat, c: bool, v: bool)
    requires IsCaller(l) && k < |s.calls| && ClosedBy(s, k, c, v)
    ensures k < |Step(s, l).calls| && ClosedBy(Step(s, l), k, c, v)
  {
  }

  lemma {:induction false} ReaderClosedBy(s: State, l: Label, k: nat, c: bool, v: bool)
    requires Inv(s) && !IsCaller(l) && !l.New? && !l.Cancel? && !l.Visit? && k < |s.calls| && ClosedBy(s, k, c, v)
    ensures k < |Step(s, l).calls| && ClosedBy(Step(s, l), k, c, v)
  {
  }

  lemma {:induction false} CancelClosedBy(s: State, id: string, k: nat, c: bool, v: bool)
    requires Inv(s) && k < |s.calls| && ClosedBy(s, k, c, v)
    ensures k < |Step(s, Label.Cancel(id)).calls|
    ensures ClosedBy(Step(s, Label.Cancel(id)), k, c || Cancels(s, Label.Cancel(id), IdOf(s.calls, k)), v)
  {
    assert CallFits(s, k);
    if s.reader == Idle && id in s.table {
      assert EntryFits(s.calls, s.table, id);
      IdsDiffer(s.calls);
      assert Step(s, Label.Cancel(id)).calls == s.calls;
      assert id == IdOf(s.calls, k) ==> s.table[id] == k && !s.calls[k].closed;
      assert id != IdOf(s.calls, k) ==> s.table[id] != k;
    } else {
      assert Step(s, Label.Cancel(id)) == s;
    }
  }

  lemma {:induction false} VisitClosedBy(s: State, id: string, k: nat, c: bool, v: bool)
    requires Inv(s) && k < |s.calls| && ClosedBy(s, k, c, v)
    ensures k < |Step(s, Label.Visit(id)).calls|
    ensures ClosedBy(Step(s, Label.Visit(id)), k, c, v || Visits(s, Label.Visit(id), IdOf(s.calls, k)))
  {
    assert CallFits(s, k);
    if s.reader.Draining? && id in s.reader.seen {
      assert EntryFits(s.calls, Noticed(s.reader), id);
      IdsDiffer(s.calls);
    }
  }

  lemma {:induction false} StepClosedBy(s: State, l: Label, k: nat, c: bool, v: bool)
    requires Inv(s) && k < |s.calls| && ClosedBy(s, k, c, v)
    ensures k < |Step(s, l).calls| && IdOf(Step(s, l).calls, k) == IdOf(s.calls, k)
    ensures var id := IdOf(s.calls, k); ClosedBy(Step(s, l), k, c || Cancels(s, l, id), v || Visits(s, l, id))
  {
    StepIds(s, l, k);
    if IsCaller(l) {
      CallerClosedBy(s, l, k, c, v);
    } else if l.Cancel? {
      CancelClosedBy(s, l.id, k, c, v);
    } else if l.Visit? {
      VisitClosedBy(s, l.id, k, c, v);
    } else if !l.New? {
      ReaderClosedBy(s, l, k, c, v);
    }
  }

  /** Only ids of calls are cancelled or visited. */
  lemma {:induction false} HistoryKnown(ls: seq<Label>, id: string)
    requires WasCancelled(ls, id) || WasVisited(ls, id)
    ensures Known(Exec(INIT, ls).calls, id)
  {
    var front, l := ls[..|ls| - 1], ls[|ls| - 1];
    var s := Exec(INIT, front);
    ReachableInv(front);
    if WasCancelled(front, id) || WasVisited(front, id) {
      HistoryKnown(front, id);
    } else if l.Cancel? {
      assert EntryFits(s.calls, s.table, id);
      assert IdOf(s.calls, s.table[id]) == id;
    } else {
      assert EntryFits(s.calls, Noticed(s.reader), id);
      assert IdOf(s.calls, s.reader.seen[id]) == id;
    }
    KnownStays(s, l, id);
  }

  lemma {:induction false} KnownStays(s: State, l: Label, id: string)
    requires Known(s.calls, id)
    ensures Known(Step(s, l).calls, id)
  {
    var k :| 0 <= k < |s.calls| && IdOf(s.calls, k) == id;
    StepIds(s, l, k);
  }

  lemma {:induction false} StepIds(s: State, l: Label, k: nat)
    requires k < |s.calls|
    ensures k < |Step(s, l).calls| && IdOf(Step(s, l).calls, k) == IdOf(s.calls, k)
  {
  }

  lemma {:induction false} NewUnknown(ls: seq<Label>, suffix: string)
    ensures var id := RequestId(|Exec(INIT, ls).calls| + 1, suffix); !WasCancelled(ls, id) && !WasVisited(ls, id)
  {
    var calls := Exec(INIT, ls).calls;
    var id := RequestId(|calls| + 1, suffix);
    NextUnknown(calls, suffix);
    if WasCancelled(ls, id) || WasVisited(ls, id) {
      HistoryKnown(ls, id);
    }
  }

  lemma {:induction false} NextUnknown(calls: seq<Call>, suffix: string)
    ensures !Known(calls, RequestId(|calls| + 1, suffix))
  {
    forall k | 0 <= k < |calls| ensures IdOf(calls, k) != RequestId(|calls| + 1, suffix) {
      if IdOf(calls, k) == RequestId(|calls| + 1, suffix) {
        RequestIdsDiffer(k + 1, |calls| + 1, calls[k].suffix, suffix);
      }
    }
  }

  lemma {:induction false} HistoryStep(ls: seq<Label>, id: string)
    requires ls != []
    ensures var front, l := ls[..|ls| - 1], ls[|ls| - 1];
      && WasCancelled(ls, id) == (WasCancelled(front, id) || Cancels(Exec(INIT, front), l, id))
      && WasVisited(ls, id) == (WasVisited(front, id) || Visits(Exec(INIT, front), l, id))
      && Exec(INIT, ls) == Step(Exec(INIT, front), l)
  {
  }

  /** Over every run: a channel is closed exactly when its id was cancelled or visited, but for the step between. */
  lemma {:induction false} ClosedIff(ls: seq<Label>, k: nat)
    requires k < |Exec(INIT, ls).calls|
    ensures var s := Exec(INIT, ls);
      var id := IdOf(s.calls, k);
      ClosedBy(s, k, WasCancelled(ls, id), WasVisited(ls, id))
  {
    var front, l := ls[..|ls| - 1], ls[|ls| - 1];
    HistoryStep(ls, IdOf(Exec(INIT, ls).calls, k));
    if k < |Exec(INIT, front).calls| {
      ClosedIff(front, k);
    }
    ClosedNext(front, l, k);
  }

  lemma {:induction false} ClosedNext(ls: seq<Label>, l: Label, k: nat)
    requires k < |Step(Exec(INIT, ls), l).calls|
    requires var s := Exec(INIT, ls);
      k < |s.calls| ==> ClosedBy(s, k, WasCancelled(ls, IdOf(s.calls, k)), WasVisited(ls, IdOf(s.calls, k)))
    ensures var s := Exec(INIT, ls);
      var t := Step(s, l);
      var id := IdOf(t.calls, k);
      ClosedBy(t, k, WasCancelled(ls, id) || Cancels(s, l, id), WasVisited(ls, id) || Visits(s, l, id))
  {
    var s := Exec(INIT, ls);
    ReachableInv(ls);
    if k < |s.calls| {
      var id := IdOf(s.calls, k);
      StepIds(s, l, k);
      StepClosedBy(s, l, k, WasCancelled(ls, id), WasVisited(ls, id));
    } else {
      OnlyNewAdds(s, l);
      NewUnknown(ls, l.suffix);
      NewClosedBy(s, l.suffix);
    }
  }

  lemma {:induction false} OnlyNewAdds(s: State, l: Label)
    ensures !l.New? ==> |Step(s, l).calls| == |s.calls|
  {
  }

  lemma {:induction false} NewClosedBy(s: State, suffix: string)
    requires ReaderFits(s)
    ensures var t := Step(s, New(suffix));
      t.calls[|s.calls|].suffix == suffix && ClosedBy(t, |s.calls|, false, false)
  {
  }

  /** The request comes back some time, its context aside. */
  ghost predicate Released(s: State, k: nat) {
    exists more :: CtxEnds(k) !in more && k < |Exec(s, more).calls| && Exec(s, more).calls[k].caller != Waiting
  }

  lemma {:induction false} ReadyIff(s: State, k: nat)
    requires s.reader.Stopped? && k < |s.calls| && s.calls[k].caller == Waiting && !s.calls[k].ctxDone
    ensures Released(s, k) <==> s.calls[k].closed || s.calls[k].slot.Some?
  {
    if s.calls[k].closed || s.calls[k].slot.Some? {
      var l := if s.calls[k].slot.Some? then Take(k) else TakeClosed(k);
      assert [l][..0] == [];
      assert Exec(s, [l]) == Step(Exec(s, []), l);
      assert Exec(s, [l]).calls[k].caller != Waiting;
    } else {
      forall more | CtxEnds(k) !in more ensures k < |Exec(s, more).calls| && Exec(s, more).calls[k].caller == Waiting {
        StrandedStays(s, more, k);
      }
    }
  }

  /** After the read loop has ended a waiting request comes back, its context aside, exactly when a response was
      handled for its id, a cancel frame took its id out, or Range came to it. */
  lemma {:induction false} ReleasedIff(ls: seq<Label>, k: nat)
    requires var s := Exec(INIT, ls);
      s.reader.Stopped? && k < |s.calls| && s.calls[k].caller == Waiting && !s.calls[k].ctxDone
    ensures var s := Exec(INIT, ls);
      var id := IdOf(s.calls, k);
      Released(s, k) <==> First(s.handled, id).Some? || WasCancelled(ls, id) || WasVisited(ls, id)
  {
    var s := Exec(INIT, ls);
    ReachableInv(ls);
    assert CallFits(s, k);
    ClosedIff(ls, k);
    ReadyIff(s, k);
  }

  /** The loop that ends without a drain, on the CLI's end or error message or on a line it cannot parse, leaves
      every waiting request behind that had no response and no cancel. */
  lemma {:induction false} StopsReleasesIff(ls: seq<Label>, k: nat)
    requires var s := Exec(INIT, ls);
      s.reader == Idle && k < |s.calls| && s.calls[k].caller == Waiting && !s.calls[k].ctxDone
    ensures var s := Exec(INIT, ls);
      var id := IdOf(s.calls, k);
      Released(Step(s, Stops), k) <==> First(s.handled, id).Some? || WasCancelled(ls, id)
  {
    var s, all := Exec(INIT, ls), ls + [Stops];
    var id := IdOf(s.calls, k);
    assert all[..|ls|] == ls;
    ClosedIff(ls, k);
    assert WasCancelled(all, id) == WasCancelled(ls, id) && WasVisited(all, id) == WasVisited(ls, id);
    ReleasedIff(all, k);
  }

  /** Such a request: made, stored and sent, and then the loop stops. */
  lemma {:induction false} StrandedReachable(suffix: string)
    ensures var s := Exec(INIT, [New(suffix), Store(0), SendOk(0), Stops]); Stranded(s, 0) && !Released(s, 0)
  {
    var a, b := [New(suffix), Store(0)], [SendOk(0), Stops];
    ExecTwo(INIT, New(suffix), Store(0));
    ExecTwo(Exec(INIT, a), SendOk(0), Stops);
    ExecThen(INIT, a, b);
    assert a + b == [New(suffix), Store(0), SendOk(0), Stops];
    ReadyIff(Exec(INIT, a + b), 0);
  }
}
