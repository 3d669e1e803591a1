/** Copying a session into a new one: domains/sessions/fork_via_store.go. */
module Fork {
  import opened Json
  import opened Seqs
  import opened Conversation
  import opened Summary
  import opened MemoryStore

  datatype ForkOptions = ForkOptions(upToMessageID: string, title: string)

  datatype ForkError = InvalidSessionID | SessionNotFound | NothingToFork | MessageNotFound

  datatype ForkResult = ForkFailed(err: ForkError) | Forked(id: string, entries: seq<Entry>)

  /** What the code takes from outside: the session id pattern, trimming, the n-th new uuid of this
      call, and the time. */
  datatype World = World(validID: string -> bool, trim: string -> string, newID: nat -> string, now: string)

  ghost predicate FreshIDs(w: World) {
    (forall i :: w.newID(i) != "") && forall i, j :: i < j ==> w.newID(i) != w.newID(j)
  }

  predicate Copied(e: Entry) {
    InTranscript(e) && At(e, IsSidechain) != Bool(true)
  }

  predicate NotProgress(e: Entry) {
    At(e, Type) != Str("progress")
  }

  function ReplacementsIn(loaded: seq<Entry>, sessionID: string): seq<Json> {
    if loaded == [] then []
    else
      var e := loaded[|loaded| - 1];
      ReplacementsIn(loaded[..|loaded| - 1], sessionID)
      + if At(e, Type) == Str("content-replacement") && At(e, SessionId) == Str(sessionID) && At(e, Replacements).Arr?
        then At(e, Replacements).items else []
  }

  /** The transcript to copy: up to and with the first entry of the asked uuid, if one is asked. */
  function Cut(t: seq<Entry>, upTo: string): (r: Option<seq<Entry>>)
    ensures r.Some? ==> r.value <= t && (t != [] ==> r.value != [])
  {
    if upTo == "" then Some(t) else CutFrom(t, upTo, 0)
  }

  function CutFrom(t: seq<Entry>, upTo: string, i: nat): (r: Option<seq<Entry>>)
    requires i <= |t|
    ensures r.Some? ==> i < |r.value| <= |t| && r.value == t[..|r.value|]
    decreases |t| - i
  {
    if i == |t| then None
    else if At(t[i], Uuid) == Str(upTo) then Some(t[..i + 1])
    else CutFrom(t, upTo, i + 1)
  }

  function Selected(loaded: seq<Entry>, upTo: string): Option<seq<Entry>> {
    Cut(Keep(loaded, Copied), upTo)
  }

  /** New uuids by old: a repeated uuid keeps its last. */
  function Renaming(t: seq<Entry>, newID: nat -> string): (m: map<string, string>)
    ensures forall e :: e in t ==> Id(e) in m
    ensures m.Keys == ById(t).Keys
  {
    if t == [] then map[] else Renaming(t[..|t| - 1], newID)[Id(t[|t| - 1]) := newID(|t| - 1)]
  }

  /** Following parents over progress entries from pid does not go round in a circle. */
  predicate Grounded(m: map<string, Entry>, pid: string, seen: set<string>)
    decreases m.Keys - seen
  {
    if pid == "" || pid !in m || NotProgress(m[pid]) then true
    else pid !in seen && Grounded(m, ParentId(m[pid]), seen + {pid})
  }

  /** The nearest ancestor that is copied. */
  function Kept(m: map<string, Entry>, pid: string, seen: set<string>): (r: Option<string>)
    requires Grounded(m, pid, seen)
    ensures r.Some? ==> r.value in m && NotProgress(m[r.value])
    decreases m.Keys - seen
  {
    if pid == "" || pid !in m then None
    else if NotProgress(m[pid]) then Some(pid)
    else Kept(m, ParentId(m[pid]), seen + {pid})
  }

  ghost predicate AllGrounded(t: seq<Entry>) {
    forall i :: 0 <= i < |t| && NotProgress(t[i]) ==> Grounded(ById(t), ParentId(t[i]), {})
  }

  function Link(ids: map<string, string>, p: Option<string>): Json {
    if p.Some? && p.value in ids then Str(ids[p.value]) else Null
  }

  function ForkEntry(o: Entry, ids: map<string, string>, parent: Json, forkID: string, sessionID: string,
                     ts: Json): Entry
    requires Id(o) in ids
  {
    var f := o[Uuid := Str(ids[Id(o)])][ParentUuid := parent];
    var lp := StrAt(o, LogicalParentUuid);
    var f := if lp != "" then f[LogicalParentUuid := Link(ids, Some(lp))] else f;
    f[SessionId := Str(forkID)][Timestamp := ts][IsSidechain := Bool(false)]
     [ForkedFrom := Obj(map[SessionId := Str(sessionID), MessageUuid := At(o, Uuid)])]
    - {TeamName, AgentName, Slug, SourceToolAssistantUuid}
  }

  function Stamp(o: Entry, last: bool, now: string): Json {
    if last || At(o, Timestamp) == Null then Str(now) else At(o, Timestamp)
  }

  ghost function ForkEntries(t: seq<Entry>, ids: map<string, string>, forkID: string, sessionID: string,
                             now: string): (r: seq<Entry>)
    requires AllGrounded(t) && forall e :: e in t ==> Id(e) in ids
    ensures |r| == |Keep(t, NotProgress)|
  {
    var w := Keep(t, NotProgress);
    KeepIn(t, NotProgress);
    assert forall k :: 0 <= k < |w| ==> w[k] in w;
    seq(|w|, k requires 0 <= k < |w| =>
      ForkEntry(w[k], ids, Link(ids, Kept(ById(t), ParentId(w[k]), {})), forkID, sessionID,
        Stamp(w[k], k == |w| - 1, now)))
  }

  /** The title of the fork: the caller's, or one derived from the source's summary. */
  function TitleFor(r: TextRules, w: World, title: string, sessionID: string, loaded: seq<Entry>): string {
    if w.trim(title) != "" then w.trim(title)
    else
      var derived := match SummaryToSessionInfo(FoldSummary(r, None, sessionID, loaded), "")
        case None => "Forked session"
        case Some(info) => OrElse(OrElse(info.customTitle, info.firstPrompt), "Forked session");
      derived + " (fork)"
  }

  function Extras(forkID: string, replacements: seq<Json>, title: string, w: World, n: nat): seq<Entry> {
    if replacements != [] then
      [map[Type := Str("content-replacement"), SessionId := Str(forkID), Replacements := Arr(replacements),
        Uuid := Str(w.newID(n)), Timestamp := Str(w.now)],
       map[Type := Str("custom-title"), SessionId := Str(forkID), CustomTitle := Str(title),
         Uuid := Str(w.newID(n + 1)), Timestamp := Str(w.now)]]
    else
      [map[Type := Str("custom-title"), SessionId := Str(forkID), CustomTitle := Str(title), Uuid := Str(w.newID(n)),
        Timestamp := Str(w.now)]]
  }

  ghost predicate ForkHalts(loaded: seq<Entry>, upTo: string) {
    Selected(loaded, upTo).Some? ==> AllGrounded(Selected(loaded, upTo).value)
  }

  /** What a fork does with the loaded entries. */
  ghost function ForkOf(r: TextRules, w: World, sessionID: string, opts: ForkOptions, loaded: seq<Entry>): ForkResult
    requires ForkHalts(loaded, opts.upToMessageID)
  {
    if !w.validID(sessionID) || (opts.upToMessageID != "" && !w.validID(opts.upToMessageID))
    then ForkFailed(InvalidSessionID)
    else if loaded == [] then ForkFailed(SessionNotFound)
    else if Keep(loaded, Copied) == [] then ForkFailed(NothingToFork)
    else match Selected(loaded, opts.upToMessageID)
      case None => ForkFailed(MessageNotFound)
      case Some(t) => ForkCut(r, w, sessionID, opts, loaded, t)
  }

  /** What it writes of the transcript as cut. */
  ghost function ForkCut(r: TextRules, w: World, sessionID: string, opts: ForkOptions, loaded: seq<Entry>,
                         t: seq<Entry>): ForkResult
    requires AllGrounded(t)
  {
    if Keep(t, NotProgress) == [] then ForkFailed(NothingToFork)
    else
      var forkID := w.newID(|t|);
      Forked(forkID, ForkEntries(t, Renaming(t, w.newID), forkID, sessionID, w.now)
                     + Extras(forkID, ReplacementsIn(loaded, sessionID), TitleFor(r, w, opts.title, sessionID, loaded),
                       w, |t| + 1))
  }

  method ForkSessionViaStore(store: MemorySessionStore, w: World, projectKey: string, sessionID: string,
                             opts: ForkOptions, clock: int)
    returns (r: ForkResult)
    requires store.Valid()
    requires ForkHalts(EntriesAt(store.View(), SessionKey(projectKey, sessionID, "")), opts.upToMessageID)
    modifies store
    ensures store.Valid()
    ensures r
      == ForkOf(store.rules, w, sessionID, opts, EntriesAt(old(store.View()), SessionKey(projectKey, sessionID, "")))
    ensures store.View() == if r.ForkFailed? then old(store.View())
      else AppendTo(store.rules, old(store.View()), SessionKey(projectKey, r.id, ""), r.entries, clock)
  {
    if !w.validID(sessionID) || (opts.upToMessageID != "" && !w.validID(opts.upToMessageID)) {
      return ForkFailed(InvalidSessionID);
    }
    var loaded := store.Load(SessionKey(projectKey, sessionID, ""));
    r := MakeFork(store.rules, w, sessionID, opts, loaded);
    if r.Forked? {
      store.Append(SessionKey(projectKey, r.id, ""), r.entries, clock);
    }
  }

  /** What is appended, once the source is loaded. */
  method MakeFork(rules: TextRules, w: World, sessionID: string, opts: ForkOptions, loaded: seq<Entry>)
    returns (r: ForkResult)
    requires w.validID(sessionID) && (opts.upToMessageID != "" ==> w.validID(opts.upToMessageID))
    requires ForkHalts(loaded, opts.upToMessageID)
    ensures r == ForkOf(rules, w, sessionID, opts, loaded)
  {
    if |loaded| == 0 {
      return ForkFailed(SessionNotFound);
    }
    var transcript, replacements := Scan(loaded, sessionID);
    if |transcript| == 0 {
      return ForkFailed(NothingToFork);
    }
    var cut := CutTranscript(transcript, opts.upToMessageID);
    if cut.None? {
      return ForkFailed(MessageNotFound);
    }
    r := WriteFork(rules, w, sessionID, opts, loaded, cut.value, replacements);
  }

  method WriteFork(rules: TextRules, w: World, sessionID: string, opts: ForkOptions, loaded: seq<Entry>, t: seq<Entry>,
                   replacements: seq<Json>)
    returns (r: ForkResult)
    requires AllGrounded(t) && replacements == ReplacementsIn(loaded, sessionID)
    ensures r == ForkCut(rules, w, sessionID, opts, loaded, t)
  {
    var mapping, byUUID, writable := MapEntries(t, w.newID);
    if |writable| == 0 {
      return ForkFailed(NothingToFork);
    }
    var forkID := w.newID(|t|);
    var out := Copy(t, mapping, byUUID, writable, forkID, sessionID, w.now);
    var title := Title(rules, w, opts.title, sessionID, loaded);
    out := AddExtras(out, forkID, replacements, title, w, |t| + 1);
    r := Forked(forkID, out);
  }

  method CutTranscript(t: seq<Entry>, upTo: string) returns (r: Option<seq<Entry>>)
    ensures r == Cut(t, upTo)
  {
    if upTo == "" {
      return Some(t);
    }
    var cut := 0;
    while cut < |t| && At(t[cut], Uuid) != Str(upTo)
      invariant cut <= |t| && CutFrom(t, upTo, cut) == CutFrom(t, upTo, 0)
    {
      cut := cut + 1;
    }
    r := if cut == |t| then None else Some(t[..cut + 1]);
  }

  method Title(r: TextRules, w: World, given: string, sessionID: string, loaded: seq<Entry>) returns (title: string)
    ensures title == TitleFor(r, w, given, sessionID, loaded)
  {
    title := w.trim(given);
    if title == "" {
      var derived := "Forked session";
      var sum := FoldSessionSummary(r, None, sessionID, loaded);
      var info := SummaryToSessionInfo(sum, "");
      if info.Some? {
        derived := OrElse(OrElse(info.value.customTitle, info.value.firstPrompt), "Forked session");
      }
      title := derived + " (fork)";
    }
  }

  method AddExtras(copies: seq<Entry>, forkID: string, replacements: seq<Json>, title: string, w: World, next: nat)
    returns (out: seq<Entry>)
    ensures out == copies + Extras(forkID, replacements, title, w, next)
  {
    out := copies;
    var n := next;
    if |replacements| > 0 {
      out :=
        out + [map[Type := Str("content-replacement"), SessionId := Str(forkID), Replacements := Arr(replacements),
          Uuid := Str(w.newID(n)), Timestamp := Str(w.now)]];
      n := n + 1;
    }
    out :=
      out + [map[Type := Str("custom-title"), SessionId := Str(forkID), CustomTitle := Str(title),
        Uuid := Str(w.newID(n)), Timestamp := Str(w.now)]];
  }

  method Scan(loaded: seq<Entry>, sessionID: string) returns (transcript: seq<Entry>, replacements: seq<Json>)
    ensures transcript == Keep(loaded, Copied) && replacements == ReplacementsIn(loaded, sessionID)
  {
    transcript, replacements := [], [];
    for i := 0 to |loaded|
      invariant transcript == Keep(loaded[..i], Copied) && replacements == ReplacementsIn(loaded[..i], sessionID)
    {
      var e := loaded[i];
      assert loaded[..i + 1][..i] == loaded[..i];
      if InTranscript(e) {
        if At(e, IsSidechain) != Bool(true) {
          transcript := transcript + [e];
        }
      } else if At(e, Type) == Str("content-replacement") && At(e, SessionId) == Str(sessionID) {
        if At(e, Replacements).Arr? {
          replacements := replacements + At(e, Replacements).items;
        }
      }
    }
    assert loaded[..|loaded|] == loaded;
  }

  lemma {:induction false} MapStep(t: seq<Entry>, newID: nat -> string, i: nat)
    requires i < |t|
    ensures Renaming(t[..i + 1], newID) == Renaming(t[..i], newID)[Id(t[i]) := newID(i)]
    ensures ById(t[..i + 1]) == ById(t[..i])[Id(t[i]) := t[i]]
    ensures Keep(t[..i + 1], NotProgress) == Keep(t[..i], NotProgress) + if NotProgress(t[i]) then [t[i]] else []
  {
    assert t[..i + 1][..i] == t[..i];
  }

  method MapEntries(t: seq<Entry>, newID: nat -> string)
    returns (mapping: map<string, string>, byUUID: map<string, Entry>, writable: seq<Entry>)
    ensures mapping == Renaming(t, newID) && byUUID == ById(t) && writable == Keep(t, NotProgress)
  {
    mapping, byUUID, writable := map[], map[], [];
    for i := 0 to |t|
      invariant mapping == Renaming(t[..i], newID) && byUUID == ById(t[..i]) && writable == Keep(t[..i], NotProgress)
    {
      MapStep(t, newID, i);
      var u := Id(t[i]);
      mapping, byUUID := mapping[u := newID(i)], byUUID[u := t[i]];
      if At(t[i], Type) != Str("progress") {
        writable := writable + [t[i]];
      }
    }
    assert t[..|t|] == t;
  }

  /** The unguarded walk over progress entries; it ends because the link is grounded. */
  method KeptParent(m: map<string, Entry>, orig: Entry) returns (p: Option<string>)
    requires Grounded(m, ParentId(orig), {})
    ensures p == Kept(m, ParentId(orig), {})
  {
    var pid := ParentId(orig);
    ghost var seen: set<string> := {};
    while pid != "" && pid in m
      invariant Grounded(m, pid, seen) && Kept(m, pid, seen) == Kept(m, ParentId(orig), {})
      decreases m.Keys - seen
    {
      if At(m[pid], Type) != Str("progress") {
        return Some(pid);
      }
      seen := seen + {pid};
      pid := ParentId(m[pid]);
    }
    p := None;
  }

  lemma ForkEntriesAt(t: seq<Entry>, ids: map<string, string>, forkID: string, sessionID: string, now: string, k: nat)
    requires AllGrounded(t) && (forall e :: e in t ==> Id(e) in ids) && k < |Keep(t, NotProgress)|
    ensures var o := Keep(t, NotProgress)[k];
      && o in t && NotProgress(o) && Grounded(ById(t), ParentId(o), {})
      && ForkEntries(t, ids, forkID, sessionID, now)[k]
         == ForkEntry(o, ids, Link(ids, Kept(ById(t), ParentId(o), {})), forkID, sessionID,
           Stamp(o, k == |Keep(t, NotProgress)| - 1, now))
  {
    KeepIn(t, NotProgress);
    assert Keep(t, NotProgress)[k] in Keep(t, NotProgress);
  }

  method Copy(t: seq<Entry>, ids: map<string, string>, m: map<string, Entry>, writable: seq<Entry>, forkID: string,
              sessionID: string, now: string)
    returns (out: seq<Entry>)
    requires AllGrounded(t) && forall e :: e in t ==> Id(e) in ids
    requires m == ById(t) && writable == Keep(t, NotProgress)
    ensures out == ForkEntries(t, ids, forkID, sessionID, now)
  {
    out := [];
    ghost var all := ForkEntries(t, ids, forkID, sessionID, now);
    for i := 0 to |writable|
      invariant out == all[..i]
    {
      ForkEntriesAt(t, ids, forkID, sessionID, now, i);
      var forked := CopyOne(writable[i], ids, m, i == |writable| - 1, forkID, sessionID, now);
      out := out + [forked];
      assert all[..i + 1] == all[..i] + [all[i]];
    }
  }

  method CopyOne(orig: Entry, ids: map<string, string>, m: map<string, Entry>, last: bool, forkID: string,
                 sessionID: string, now: string)
    returns (forked: Entry)
    requires Grounded(m, ParentId(orig), {}) && Id(orig) in ids
    ensures forked
      == ForkEntry(orig, ids, Link(ids, Kept(m, ParentId(orig), {})), forkID, sessionID, Stamp(orig, last, now))
  {
    var parent := KeptParent(m, orig);
    var ts := At(orig, Timestamp);
    if last || ts == Null {
      ts := Str(now);
    }
    forked := Rewrite(orig, ids, Link(ids, parent), forkID, sessionID, ts);
  }

  method Rewrite(orig: Entry, ids: map<string, string>, parent: Json, forkID: string, sessionID: string, ts: Json)
    returns (forked: Entry)
    requires Id(orig) in ids
    ensures forked == ForkEntry(orig, ids, parent, forkID, sessionID, ts)
  {
    forked := orig;
    forked := forked[Uuid := Str(ids[Id(orig)])];
    forked := forked[ParentUuid := parent];
    var lp := StrAt(orig, LogicalParentUuid);
    if lp != "" {
      forked := forked[LogicalParentUuid := if lp in ids then Str(ids[lp]) else Null];
    }
    forked := forked[SessionId := Str(forkID)][Timestamp := ts][IsSidechain := Bool(false)];
    forked := forked[ForkedFrom := Obj(map[SessionId := Str(sessionID), MessageUuid := At(orig, Uuid)])];
    forked := forked - {TeamName, AgentName, Slug, SourceToolAssistantUuid};
  }
}
