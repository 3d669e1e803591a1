/** The session summary a store keeps beside a transcript: domains/sessions/summary.go. */
module Summary {
  import opened Json
  import opened Seqs

  /** What the code takes from the standard library: trimming a text block, the two regular
      expressions, the 200-rune cut, and parsing an ISO timestamp. */
  datatype TextRules = TextRules(
    clean: string -> string,
    command: string -> Option<string>,
    skip: string -> bool,
    shorten: string -> string,
    epoch: string -> Option<int>)

  datatype Key =
    | Sidechain | CreatedAt | WorkDir | FirstPrompt | PromptLocked | CommandFallback
    | CustomTitleKey | AiTitleKey | LastPromptKey | SummaryHint | Branch | TagKey

  type Data = map<Key, Json>

  datatype SummaryEntry = SummaryEntry(sessionID: string, mtimeMs: int, data: Data)

  function Get(d: Data, k: Key): Json {
    if k in d then d[k] else Null
  }

  function Text(d: Data, k: Key): string {
    if Get(d, k).Str? then Get(d, k).s else ""
  }

  predicate Locked(d: Data) {
    Get(d, PromptLocked) == Bool(true)
  }

  function EpochOf(r: TextRules, e: Entry): Option<Json> {
    if !At(e, Timestamp).Str? then None
    else match r.epoch(At(e, Timestamp).s) case None => None case Some(ms) => Some(Num(ms))
  }

  function CwdOf(e: Entry): Option<Json> {
    if StrAt(e, Cwd) != "" then Some(Str(StrAt(e, Cwd))) else None
  }

  function StringOf(e: Entry, f: Field): Option<Json> {
    if At(e, f).Str? then Some(At(e, f)) else None
  }

  function IsObj(j: Json, f: Field, v: string): bool {
    j.Obj? && At(j.fields, f) == Str(v)
  }

  function ContentOf(e: Entry): Json {
    if At(e, Message).Obj? then At(At(e, Message).fields, Content) else Null
  }

  function ArrTexts(items: seq<Json>): seq<string> {
    if items == [] then []
    else
      var last := items[|items| - 1];
      ArrTexts(items[..|items| - 1])
      + if IsObj(last, Type, "text") && At(last.fields, Field.Text).Str? then [At(last.fields, Field.Text).s] else []
  }

  /** An entry that may hold a prompt: typed by the user, not generated, not a tool's result. */
  predicate MayPrompt(e: Entry) {
    && At(e, Type) == Str("user") && At(e, IsMeta) != Bool(true) && At(e, IsCompactSummary) != Bool(true)
    && (ContentOf(e).Arr? ==> forall i ::
       0 <= i < |ContentOf(e).items| ==> !IsObj(ContentOf(e).items[i], Type, "tool_result"))
  }

  function PromptTexts(e: Entry): seq<string> {
    if !MayPrompt(e) then []
    else match ContentOf(e) case Str(c) => [c] case Arr(items) => ArrTexts(items) case _ => []
  }

  predicate IsText(j: Json) {
    j.Obj? && At(j.fields, Type) == Str("text") && At(j.fields, Field.Text).Str?
  }

  /** The texts are those of the text blocks, one for each, in order: the k-th is the block at at[k]. */
  ghost predicate AreTexts(items: seq<Json>, texts: seq<string>, at: seq<nat>) {
    && |at| == |texts| && (forall k, l :: 0 <= k < l < |at| ==> at[k] < at[l])
    && (forall k :: 0 <= k < |at| ==> TextIs(items, at[k], texts[k]))
    && (forall i :: 0 <= i < |items| && IsText(items[i]) ==> i in at)
  }

  predicate TextIs(items: seq<Json>, i: nat, t: string) {
    i < |items| && IsText(items[i]) && At(items[i].fields, Field.Text) == Str(t)
  }

  lemma AreTextsEnd(items: seq<Json>, x: Json, texts: seq<string>, at: seq<nat>)
    requires AreTexts(items, texts, at)
    ensures if IsText(x) then AreTexts(items + [x], texts + [At(x.fields, Field.Text).s], at + [|items|])
            else AreTexts(items + [x], texts, at)
  {
    var all := items + [x];
    forall k | 0 <= k < |at| ensures TextIs(all, at[k], texts[k]) {
      assert all[at[k]] == items[at[k]];
    }
    forall i | 0 <= i < |all| && IsText(all[i]) ensures i in at + [|items|] && (i < |items| ==> i in at) {
    }
  }

  lemma {:induction false} ArrTextsAre(items: seq<Json>) returns (at: seq<nat>)
    ensures AreTexts(items, ArrTexts(items), at)
  {
    at := [];
    if items != [] {
      var front, last := items[..|items| - 1], items[|items| - 1];
      at := ArrTextsAre(front);
      AreTextsEnd(front, last, ArrTexts(front), at);
      FrontLast(items);
      if IsText(last) {
        at := at + [|front|];
      } else {
        assert ArrTexts(front) + [] == ArrTexts(front);
      }
    }
  }

  /** The candidate texts of an entry: only one that the user typed has any, its whole content or, without a tool's
      result among the blocks, its text blocks in order. */
  lemma {:induction false} PromptTextsAre(e: Entry)
    ensures var m, texts := At(e, Message), PromptTexts(e);
      if At(e, Type) != Str("user") || At(e, IsMeta) == Bool(true) || At(e, IsCompactSummary) == Bool(true) || !m.Obj?
      then texts == []
      else match At(m.fields, Content)
        case Str(c) => texts == [c]
        case Arr(items) =>
          if exists j :: j in items && j.Obj? && At(j.fields, Type) == Str("tool_result") then texts == []
          else exists at :: AreTexts(items, texts, at)
        case _ => texts == []
  {
    var content := ContentOf(e);
    if content.Arr? {
      var at := ArrTextsAre(content.items);
      if MayPrompt(e) {
        forall j | j in content.items ensures !IsObj(j, Type, "tool_result") {
        }
      }
    }
  }

  /** One candidate text: a command name is kept as a fallback, the first real prompt locks. */
  function FoldText(r: TextRules, d: Data, raw: string): Data {
    var text := r.clean(raw);
    if Locked(d) || text == "" then d
    else match r.command(text)
      case Some(name) => if Text(d, CommandFallback) == "" then d[CommandFallback := Str(name)] else d
      case None => if r.skip(text) then d else d[FirstPrompt := Str(r.shorten(text))][PromptLocked := Bool(true)]
  }

  function FoldTexts(r: TextRules, d: Data, texts: seq<string>): Data {
    if texts == [] then d else FoldText(r, FoldTexts(r, d, texts[..|texts| - 1]), texts[|texts| - 1])
  }

  function PutFirst(d: Data, k: Key, v: Option<Json>): Data {
    if k !in d && v.Some? then d[k := v.value] else d
  }

  function PutLast(d: Data, k: Key, v: Option<Json>): Data {
    if v.Some? then d[k := v.value] else d
  }

  function PutTag(d: Data, e: Entry): Data {
    if At(e, Type) != Str("tag") then d
    else if StrAt(e, Tag) != "" then d[TagKey := Str(StrAt(e, Tag))] else d - {TagKey}
  }

  function FoldFirsts(r: TextRules, d: Data, e: Entry): Data {
    PutFirst(PutFirst(PutFirst(d, Sidechain, Some(Bool(At(e, IsSidechain) == Bool(true)))), CreatedAt, EpochOf(r, e)),
      WorkDir, CwdOf(e))
  }

  function FoldLasts(d: Data, e: Entry): Data {
    var d := PutLast(PutLast(d, CustomTitleKey, StringOf(e, CustomTitle)), AiTitleKey, StringOf(e, AiTitle));
    var d := PutLast(PutLast(d, LastPromptKey, StringOf(e, LastPrompt)), SummaryHint, StringOf(e, SummaryText));
    PutLast(d, Branch, StringOf(e, GitBranch))
  }

  function FoldOne(r: TextRules, d: Data, e: Entry): Data {
    PutTag(FoldLasts(FoldTexts(r, FoldFirsts(r, d, e), PromptTexts(e)), e), e)
  }

  function Fold(r: TextRules, d: Data, entries: seq<Entry>): Data {
    if entries == [] then d else FoldOne(r, Fold(r, d, entries[..|entries| - 1]), entries[|entries| - 1])
  }

  function FoldSummary(r: TextRules, prev: Option<SummaryEntry>, sessionID: string, entries: seq<Entry>): SummaryEntry {
    match prev
    case None => SummaryEntry(sessionID, 0, Fold(r, map[], entries))
    case Some(p) => p.(data := Fold(r, p.data, entries))
  }

  method FoldSessionSummary(r: TextRules, prev: Option<SummaryEntry>, sessionID: string, entries: seq<Entry>)
    returns (out: SummaryEntry)
    ensures out == FoldSummary(r, prev, sessionID, entries)
  {
    out := SummaryEntry(sessionID, 0, map[]);
    if prev.Some? {
      out := prev.value;
    }
    var data := out.data;
    for i := 0 to |entries|
      invariant data == Fold(r, out.data, entries[..i])
    {
      var e := entries[i];
      assert entries[..i + 1][..i] == entries[..i];
      data := FoldFirstWins(r, data, e);
      data := FoldFirstPrompt(r, data, e);
      data := FoldLastWins(data, e);
      data := FoldTag(data, e);
    }
    assert entries[..|entries|] == entries;
    out := out.(data := data);
  }

  method FoldFirstWins(r: TextRules, d: Data, e: Entry) returns (data: Data)
    ensures data == FoldFirsts(r, d, e)
  {
    data := d;
    if Sidechain !in data {
      data := data[Sidechain := Bool(At(e, IsSidechain) == Bool(true))];
    }
    if CreatedAt !in data && EpochOf(r, e).Some? {
      data := data[CreatedAt := EpochOf(r, e).value];
    }
    if WorkDir !in data && StrAt(e, Cwd) != "" {
      data := data[WorkDir := Str(StrAt(e, Cwd))];
    }
  }

  method FoldTag(d: Data, e: Entry) returns (data: Data)
    ensures data == PutTag(d, e)
  {
    data := d;
    if At(e, Type) == Str("tag") {
      if StrAt(e, Tag) != "" {
        data := data[TagKey := Str(StrAt(e, Tag))];
      } else {
        data := data - {TagKey};
      }
    }
  }

  method FoldLastWins(d: Data, e: Entry) returns (data: Data)
    ensures data == FoldLasts(d, e)
  {
    data := d;
    if At(e, CustomTitle).Str? { data := data[CustomTitleKey := At(e, CustomTitle)]; }
    if At(e, AiTitle).Str? { data := data[AiTitleKey := At(e, AiTitle)]; }
    if At(e, LastPrompt).Str? { data := data[LastPromptKey := At(e, LastPrompt)]; }
    if At(e, SummaryText).Str? { data := data[SummaryHint := At(e, SummaryText)]; }
    if At(e, GitBranch).Str? { data := data[Branch := At(e, GitBranch)]; }
  }

  method FoldFirstPrompt(r: TextRules, d: Data, e: Entry) returns (data: Data)
    ensures data == FoldTexts(r, d, PromptTexts(e))
  {
    data := d;
    var texts := PromptTexts(e);
    if Locked(d) || !MayPrompt(e) {
      LockedStays(r, d, texts);
      return;
    }
    for i := 0 to |texts|
      invariant !Locked(data) && data == FoldTexts(r, d, texts[..i])
    {
      assert texts[..i + 1][..i] == texts[..i];
      var text := r.clean(texts[i]);
      if text == "" {
        continue;
      }
      match r.command(text) {
        case Some(name) =>
          if Text(data, CommandFallback) == "" {
            data := data[CommandFallback := Str(name)];
          }
        case None =>
          if !r.skip(text) {
            data := data[FirstPrompt := Str(r.shorten(text))][PromptLocked := Bool(true)];
            assert texts[..i + 1] + texts[i + 1..] == texts;
            FoldTextsConcat(r, d, texts[..i + 1], texts[i + 1..]);
            LockedStays(r, data, texts[i + 1..]);
            return;
          }
      }
    }
    assert texts[..|texts|] == texts;
  }

  lemma {:induction false} LockedStays(r: TextRules, d: Data, texts: seq<string>)
    requires Locked(d) || texts == []
    ensures FoldTexts(r, d, texts) == d
  {
    if texts != [] {
      LockedStays(r, d, texts[..|texts| - 1]);
    }
  }

  lemma {:induction false} FoldTextsConcat(r: TextRules, d: Data, a: seq<string>, b: seq<string>)
    ensures FoldTexts(r, d, a + b) == FoldTexts(r, FoldTexts(r, d, a), b)
  {
    if b == [] {
      assert a + b == a;
    } else {
      FoldTextsConcat(r, d, a, b[..|b| - 1]);
      assert (a + b)[..|a + b| - 1] == a + b[..|b| - 1];
    }
  }

  /** Folding batch after batch is folding them all at once, however the history was cut. */
  lemma {:induction false} FoldConcat(r: TextRules, d: Data, a: seq<Entry>, b: seq<Entry>)
    ensures Fold(r, d, a + b) == Fold(r, Fold(r, d, a), b)
  {
    FoldIsLeft(r, d, a + b);
    FoldIsLeft(r, d, a);
    FoldIsLeft(r, Fold(r, d, a), b);
    FoldLeftConcat(OneStep(r), d, a, b);
  }

  function OneStep(r: TextRules): (Data, Entry) -> Data {
    (d, e) => FoldOne(r, d, e)
  }

  lemma {:induction false} FoldIsLeft(r: TextRules, d: Data, entries: seq<Entry>)
    ensures Fold(r, d, entries) == FoldLeft(OneStep(r), d, entries)
  {
    if entries != [] {
      FoldIsLeft(r, d, entries[..|entries| - 1]);
    }
  }

  /** Batches folded one after another into a running summary. */
  function FoldBatches(r: TextRules, prev: SummaryEntry, batches: seq<seq<Entry>>): SummaryEntry {
    if batches == [] then prev
    else FoldSummary(r, Some(FoldBatches(r, prev, batches[..|batches| - 1])), prev.sessionID, batches[|batches| - 1])
  }

  function Joined(batches: seq<seq<Entry>>): seq<Entry> {
    if batches == [] then [] else Joined(batches[..|batches| - 1]) + batches[|batches| - 1]
  }

  lemma {:induction false} FoldIsHomomorphism(r: TextRules, prev: SummaryEntry, batches: seq<seq<Entry>>)
    ensures FoldBatches(r, prev, batches) == FoldSummary(r, Some(prev), prev.sessionID, Joined(batches))
  {
    if batches != [] {
      FoldIsHomomorphism(r, prev, batches[..|batches| - 1]);
      FoldConcat(r, prev.data, Joined(batches[..|batches| - 1]), batches[|batches| - 1]);
    }
  }

  datatype SessionInfo = SessionInfo(
    sessionID: string, summary: string, lastModified: int, customTitle: string, firstPrompt: string,
    gitBranch: string, cwd: string, tag: string, createdAt: int)

  function OrElse(a: string, b: string): string {
    if a == "" then b else a
  }

  /** None for a sidechain session and for one with nothing to show. */
  function SummaryToSessionInfo(e: SummaryEntry, projectPath: string): (r: Option<SessionInfo>)
    ensures r.Some? ==> r.value.sessionID == e.sessionID && r.value.lastModified == e.mtimeMs && r.value.summary != ""
  {
    var first := if Locked(e.data) then Text(e.data, FirstPrompt) else Text(e.data, CommandFallback);
    var title := OrElse(Text(e.data, CustomTitleKey), Text(e.data, AiTitleKey));
    var summary := OrElse(OrElse(OrElse(title, Text(e.data, LastPromptKey)), Text(e.data, SummaryHint)), first);
    if Get(e.data, Sidechain) == Bool(true) || summary == "" then None
    else Some(SessionInfo(
      e.sessionID, summary, e.mtimeMs, title, first,
      Text(e.data, Branch), OrElse(Text(e.data, WorkDir), projectPath), Text(e.data, TagKey),
      if Get(e.data, CreatedAt).Num? then Get(e.data, CreatedAt).n else 0))
  }

  // What each field means over a whole history.

  /** v is what the first entry that has one says, None if no entry has one. */
  ghost predicate IsFirst(entries: seq<Entry>, f: Entry -> Option<Json>, v: Option<Json>) {
    match v
    case None => forall i :: 0 <= i < |entries| ==> f(entries[i]).None?
    case Some(_) =>
      exists i :: 0 <= i < |entries| && f(entries[i]) == v && forall j :: 0 <= j < i ==> f(entries[j]).None?
  }

  /** v is what the last entry that has one says, None if no entry has one. */
  ghost predicate IsLast(entries: seq<Entry>, f: Entry -> Option<Json>, v: Option<Json>) {
    match v
    case None => forall i :: 0 <= i < |entries| ==> f(entries[i]).None?
    case Some(_) =>
      exists i :: 0 <= i < |entries| && f(entries[i]) == v && forall j :: i < j < |entries| ==> f(entries[j]).None?
  }

  function Lookup(d: Data, k: Key): Option<Json> {
    if k in d then Some(d[k]) else None
  }

  function SidechainOf(e: Entry): Option<Json> {
    Some(Bool(At(e, IsSidechain) == Bool(true)))
  }

  /** What a tag entry says of the tag: a value, or that there is none. */
  function TagOf(e: Entry): Option<Json> {
    if At(e, Type) != Str("tag") then None else Some(Str(StrAt(e, Tag)))
  }

  function HistoryTexts(entries: seq<Entry>): seq<string> {
    if entries == [] then [] else HistoryTexts(entries[..|entries| - 1]) + PromptTexts(entries[|entries| - 1])
  }

  predicate IsCommand(r: TextRules, raw: string) {
    r.clean(raw) != "" && r.command(r.clean(raw)).Some?
  }

  predicate IsPrompt(r: TextRules, raw: string) {
    r.clean(raw) != "" && r.command(r.clean(raw)).None? && !r.skip(r.clean(raw))
  }

  /** The first real prompt, and the first named command typed before it. */
  ghost predicate PromptMeaning(r: TextRules, texts: seq<string>, d: Data) {
    && (Locked(d) <==> exists i :: 0 <= i < |texts| && IsPrompt(r, texts[i]))
    && (Locked(d) ==> LockedMeaning(r, texts, Get(d, FirstPrompt), Text(d, CommandFallback)))
    && (!Locked(d) ==> FirstPrompt !in d && FallbackMeaning(r, texts, Text(d, CommandFallback)))
  }

  ghost predicate FirstPromptAt(r: TextRules, texts: seq<string>, i: nat)
    requires i < |texts|
  {
    IsPrompt(r, texts[i]) && forall j :: 0 <= j < i ==> !IsPrompt(r, texts[j])
  }

  predicate NamesCommand(r: TextRules, raw: string, name: string) {
    IsCommand(r, raw) && r.command(r.clean(raw)).value == name
  }

  ghost predicate FallbackMeaning(r: TextRules, texts: seq<string>, name: string) {
    if name == "" then forall i :: 0 <= i < |texts| && IsCommand(r, texts[i]) ==> NamesCommand(r, texts[i], "")
    else exists i :: 0 <= i < |texts| && NamesCommand(r, texts[i], name)
                     && forall j :: 0 <= j < i && IsCommand(r, texts[j]) ==> NamesCommand(r, texts[j], "")
  }

  ghost predicate LockedMeaning(r: TextRules, texts: seq<string>, prompt: Json, fallback: string) {
    exists i :: 0 <= i < |texts| && FirstPromptAt(r, texts, i) && prompt == Str(r.shorten(r.clean(texts[i])))
                && FallbackMeaning(r, texts[..i], fallback)
  }

  lemma LockedStep(r: TextRules, front: seq<string>, raw: string, prompt: Json, fallback: string)
    requires LockedMeaning(r, front, prompt, fallback)
    ensures LockedMeaning(r, front + [raw], prompt, fallback)
    ensures exists i :: 0 <= i < |front + [raw]| && IsPrompt(r, (front + [raw])[i])
  {
    var texts := front + [raw];
    var i :| 0 <= i < |front| && FirstPromptAt(r, front, i) && prompt == Str(r.shorten(r.clean(front[i])))
             && FallbackMeaning(r, front[..i], fallback);
    assert texts[i] == front[i] && texts[..i] == front[..i];
    assert forall j :: 0 <= j < i ==> texts[j] == front[j];
    assert FirstPromptAt(r, texts, i);
  }

  lemma LockStep(r: TextRules, front: seq<string>, raw: string, fallback: string)
    requires (forall i :: 0 <= i < |front| ==> !IsPrompt(r, front[i])) && IsPrompt(r, raw)
      && FallbackMeaning(r, front, fallback)
    ensures LockedMeaning(r, front + [raw], Str(r.shorten(r.clean(raw))), fallback)
    ensures exists i :: 0 <= i < |front + [raw]| && IsPrompt(r, (front + [raw])[i])
  {
    var texts := front + [raw];
    assert texts[|front|] == raw && texts[..|front|] == front;
    assert forall j :: 0 <= j < |front| ==> texts[j] == front[j];
    assert FirstPromptAt(r, texts, |front|);
  }

  lemma PromptStep(r: TextRules, front: seq<string>, raw: string, d: Data)
    requires PromptMeaning(r, front, d)
    ensures PromptMeaning(r, front + [raw], FoldText(r, d, raw))
  {
    var d' := FoldText(r, d, raw);
    if Locked(d) {
      LockedStep(r, front, raw, Get(d, FirstPrompt), Text(d, CommandFallback));
    } else if IsPrompt(r, raw) {
      LockStep(r, front, raw, Text(d, CommandFallback));
      assert Get(d', FirstPrompt) == Str(r.shorten(r.clean(raw)))
        && Text(d', CommandFallback) == Text(d, CommandFallback);
    } else {
      FallbackStep(r, front, raw, Text(d, CommandFallback));
      assert !Locked(d') && FirstPrompt !in d';
      assert Text(d', CommandFallback)
        == if Text(d, CommandFallback) == "" && IsCommand(r, raw) then r.command(r.clean(raw)).value
           else Text(d, CommandFallback);
    }
  }

  lemma {:induction false} PromptsMean(r: TextRules, texts: seq<string>)
    ensures PromptMeaning(r, texts, FoldTexts(r, map[], texts))
  {
    if texts != [] {
      var front, raw := texts[..|texts| - 1], texts[|texts| - 1];
      PromptsMean(r, front);
      PromptStep(r, front, raw, FoldTexts(r, map[], front));
      assert texts == front + [raw];
    }
  }

  lemma FallbackStep(r: TextRules, front: seq<string>, raw: string, name: string)
    requires FallbackMeaning(r, front, name)
    ensures FallbackMeaning(r, front + [raw],
                            if name == "" && IsCommand(r, raw) then r.command(r.clean(raw)).value else name)
  {
    var texts := front + [raw];
    if name == "" {
      if IsCommand(r, raw) {
        assert NamesCommand(r, texts[|front|], r.command(r.clean(raw)).value);
      }
    } else {
      var i :| 0 <= i < |front| && NamesCommand(r, front[i], name)
               && forall j :: 0 <= j < i && IsCommand(r, front[j]) ==> NamesCommand(r, front[j], "");
      assert texts[i] == front[i];
    }
  }

  // Which of the summary's keys each step of a fold writes, and with what.

  lemma {:induction false} FoldTextsFrame(r: TextRules, d: Data, texts: seq<string>, k: Key)
    requires k !in {FirstPrompt, PromptLocked, CommandFallback}
    ensures Lookup(FoldTexts(r, d, texts), k) == Lookup(d, k)
  {
    if texts != [] {
      FoldTextsFrame(r, d, texts[..|texts| - 1], k);
    }
  }

  function PromptPart(d: Data): Data {
    map k | k in d && k in {FirstPrompt, PromptLocked, CommandFallback} :: d[k]
  }

  lemma FoldTextPart(r: TextRules, d: Data, raw: string)
    ensures PromptPart(FoldText(r, d, raw)) == FoldText(r, PromptPart(d), raw)
  {
    assert Locked(PromptPart(d)) == Locked(d) && Text(PromptPart(d), CommandFallback) == Text(d, CommandFallback);
  }

  lemma {:induction false} FoldTextsPart(r: TextRules, d: Data, texts: seq<string>)
    ensures PromptPart(FoldTexts(r, d, texts)) == FoldTexts(r, PromptPart(d), texts)
  {
    if texts != [] {
      FoldTextsPart(r, d, texts[..|texts| - 1]);
      FoldTextPart(r, FoldTexts(r, d, texts[..|texts| - 1]), texts[|texts| - 1]);
    }
  }

  lemma FirstsKeepPrompts(r: TextRules, d: Data, e: Entry)
    ensures PromptPart(FoldFirsts(r, d, e)) == PromptPart(d)
  {
  }

  lemma LastsKeepPrompts(d: Data, e: Entry)
    ensures PromptPart(FoldLasts(d, e)) == PromptPart(d)
  {
  }

  lemma TagKeepsPrompts(d: Data, e: Entry)
    ensures PromptPart(PutTag(d, e)) == PromptPart(d)
  {
  }

  /** The prompt fields of a summary are the fold of the history's texts alone. */
  lemma {:induction false} FoldPrompts(r: TextRules, entries: seq<Entry>)
    ensures PromptPart(Fold(r, map[], entries)) == FoldTexts(r, map[], HistoryTexts(entries))
  {
    if entries == [] {
      assert PromptPart(map[]) == map[];
    } else {
      var front, e := entries[..|entries| - 1], entries[|entries| - 1];
      FoldPrompts(r, front);
      var d := Fold(r, map[], front);
      var d1 := FoldFirsts(r, d, e);
      var d2 := FoldTexts(r, d1, PromptTexts(e));
      FirstsKeepPrompts(r, d, e);
      FoldTextsPart(r, d1, PromptTexts(e));
      FoldTextsConcat(r, map[], HistoryTexts(front), PromptTexts(e));
      LastsKeepPrompts(d2, e);
      TagKeepsPrompts(FoldLasts(d2, e), e);
    }
  }

  lemma PromptPartMeans(r: TextRules, texts: seq<string>, d: Data)
    requires PromptMeaning(r, texts, PromptPart(d))
    ensures PromptMeaning(r, texts, d)
  {
    assert Locked(PromptPart(d)) == Locked(d) && Text(PromptPart(d), CommandFallback) == Text(d, CommandFallback);
    assert Get(PromptPart(d), FirstPrompt) == Get(d, FirstPrompt);
  }

  function EpochIn(r: TextRules): Entry -> Option<Json> {
    e => EpochOf(r, e)
  }

  /** What an entry says of one of the fields the last entry decides. */
  function StringIn(k: Key): Entry -> Option<Json> {
    match k
    case CustomTitleKey => e => StringOf(e, CustomTitle)
    case AiTitleKey => e => StringOf(e, AiTitle)
    case LastPromptKey => e => StringOf(e, LastPrompt)
    case SummaryHint => e => StringOf(e, SummaryText)
    case Branch => e => StringOf(e, GitBranch)
    case _ => e => None
  }

  const LAST_WINS := {CustomTitleKey, AiTitleKey, LastPromptKey, SummaryHint, Branch}

  lemma FirstsFrame(r: TextRules, d: Data, e: Entry)
    ensures var d' := FoldFirsts(r, d, e);
      && Lookup(d', Sidechain) == (if Sidechain in d then Lookup(d, Sidechain) else SidechainOf(e))
      && Lookup(d', CreatedAt) == (if CreatedAt in d then Lookup(d, CreatedAt) else EpochOf(r, e))
      && Lookup(d', WorkDir) == (if WorkDir in d then Lookup(d, WorkDir) else CwdOf(e))
      && (forall k :: k !in {Sidechain, CreatedAt, WorkDir} ==> Lookup(d', k) == Lookup(d, k))
  {
  }

  lemma TagFrame(d: Data, e: Entry)
    ensures forall k :: k != TagKey ==> Lookup(PutTag(d, e), k) == Lookup(d, k)
  {
  }

  lemma FirstsStep(r: TextRules, d: Data, e: Entry, k: Key)
    requires k in {Sidechain, CreatedAt, WorkDir}
    ensures Lookup(FoldOne(r, d, e), k) == Lookup(FoldFirsts(r, d, e), k)
  {
    var d1 := FoldFirsts(r, d, e);
    FoldTextsFrame(r, d1, PromptTexts(e), k);
    var d2 := FoldTexts(r, d1, PromptTexts(e));
    LastsFrame(d2, e);
    TagFrame(FoldLasts(d2, e), e);
  }

  lemma LastsFrame(d: Data, e: Entry)
    ensures forall k :: k !in LAST_WINS ==> Lookup(FoldLasts(d, e), k) == Lookup(d, k)
  {
  }

  lemma LastsAt(d: Data, e: Entry, k: Key)
    requires k in LAST_WINS
    ensures Lookup(FoldLasts(d, e), k) == if StringIn(k)(e).Some? then StringIn(k)(e) else Lookup(d, k)
  {
  }

  lemma FirstsKeepAt(r: TextRules, d: Data, e: Entry, k: Key)
    requires k in LAST_WINS || k == TagKey
    ensures Lookup(FoldFirsts(r, d, e), k) == Lookup(d, k)
  {
  }

  lemma TagKeepsAt(d: Data, e: Entry, k: Key)
    requires k in LAST_WINS
    ensures Lookup(PutTag(d, e), k) == Lookup(d, k)
  {
  }

  lemma LastsStep(r: TextRules, d: Data, e: Entry, k: Key)
    requires k in LAST_WINS
    ensures Lookup(FoldOne(r, d, e), k) == if StringIn(k)(e).Some? then StringIn(k)(e) else Lookup(d, k)
  {
    var d1 := FoldFirsts(r, d, e);
    FirstsKeepAt(r, d, e, k);
    FoldTextsFrame(r, d1, PromptTexts(e), k);
    var d2 := FoldTexts(r, d1, PromptTexts(e));
    LastsAt(d2, e, k);
    TagKeepsAt(FoldLasts(d2, e), e, k);
  }

  lemma LastsKeepTag(d: Data, e: Entry)
    ensures Lookup(FoldLasts(d, e), TagKey) == Lookup(d, TagKey)
  {
  }

  lemma TagAt(d: Data, e: Entry)
    ensures Lookup(PutTag(d, e), TagKey)
      == match TagOf(e) case None => Lookup(d, TagKey) case Some(t) => if t == Str("") then None else Some(t)
  {
  }

  lemma TagStep(r: TextRules, d: Data, e: Entry)
    ensures Lookup(FoldOne(r, d, e), TagKey)
      == match TagOf(e) case None => Lookup(d, TagKey) case Some(t) => if t == Str("") then None else Some(t)
  {
    var d1 := FoldFirsts(r, d, e);
    FirstsKeepAt(r, d, e, TagKey);
    FoldTextsFrame(r, d1, PromptTexts(e), TagKey);
    var d2 := FoldTexts(r, d1, PromptTexts(e));
    LastsKeepTag(d2, e);
    TagAt(FoldLasts(d2, e), e);
  }

  lemma FirstStep(entries: seq<Entry>, e: Entry, f: Entry -> Option<Json>, v: Option<Json>)
    requires IsFirst(entries, f, v)
    ensures IsFirst(entries + [e], f, if v.Some? then v else f(e))
  {
    var all := entries + [e];
    if v.Some? {
      var i :| 0 <= i < |entries| && f(entries[i]) == v && forall j :: 0 <= j < i ==> f(entries[j]).None?;
      assert all[i] == entries[i];
    } else if f(e).Some? {
      assert all[|entries|] == e;
    }
  }

  lemma LastStep(entries: seq<Entry>, e: Entry, f: Entry -> Option<Json>, v: Option<Json>)
    requires IsLast(entries, f, v)
    ensures IsLast(entries + [e], f, if f(e).Some? then f(e) else v)
  {
    var all := entries + [e];
    if f(e).Some? {
      assert all[|entries|] == e;
    } else if v.Some? {
      var i :| 0 <= i < |entries| && f(entries[i]) == v && forall j :: i < j < |entries| ==> f(entries[j]).None?;
      assert all[i] == entries[i];
    }
  }

  /** The tag as the last tag entry leaves it. */
  ghost predicate TagMeaning(entries: seq<Entry>, tag: Option<Json>) {
    exists v :: IsLast(entries, TagOf, v) && tag == if v == Some(Str("")) then None else v
  }

  ghost predicate FirstsMeaning(r: TextRules, entries: seq<Entry>, d: Data) {
    && IsFirst(entries, SidechainOf, Lookup(d, Sidechain))
    && IsFirst(entries, EpochIn(r), Lookup(d, CreatedAt))
    && IsFirst(entries, CwdOf, Lookup(d, WorkDir))
  }

  lemma {:induction false} FirstsMean(r: TextRules, entries: seq<Entry>)
    ensures FirstsMeaning(r, entries, Fold(r, map[], entries))
  {
    if entries != [] {
      var front, e := entries[..|entries| - 1], entries[|entries| - 1];
      var d := Fold(r, map[], front);
      FirstsMean(r, front);
      assert entries == front + [e];
      FirstsStep(r, d, e, Sidechain);
      FirstsStep(r, d, e, CreatedAt);
      FirstsStep(r, d, e, WorkDir);
      FirstsFrame(r, d, e);
      FirstStep(front, e, SidechainOf, Lookup(d, Sidechain));
      FirstStep(front, e, EpochIn(r), Lookup(d, CreatedAt));
      FirstStep(front, e, CwdOf, Lookup(d, WorkDir));
    }
  }

  lemma {:induction false} LastMeans(r: TextRules, entries: seq<Entry>, k: Key)
    requires k in LAST_WINS
    ensures IsLast(entries, StringIn(k), Lookup(Fold(r, map[], entries), k))
  {
    if entries != [] {
      var front, e := entries[..|entries| - 1], entries[|entries| - 1];
      var d := Fold(r, map[], front);
      LastMeans(r, front, k);
      assert entries == front + [e];
      LastsStep(r, d, e, k);
      LastStep(front, e, StringIn(k), Lookup(d, k));
    }
  }

  lemma {:induction false} TagMeans(r: TextRules, entries: seq<Entry>)
    ensures TagMeaning(entries, Lookup(Fold(r, map[], entries), TagKey))
  {
    if entries == [] {
      assert IsLast(entries, TagOf, None);
    } else {
      var front, e := entries[..|entries| - 1], entries[|entries| - 1];
      var d := Fold(r, map[], front);
      TagMeans(r, front);
      assert entries == front + [e];
      TagStep(r, d, e);
      var v :| IsLast(front, TagOf, v) && Lookup(d, TagKey) == if v == Some(Str("")) then None else v;
      LastStep(front, e, TagOf, v);
    }
  }

  /** The closed form of a fold: every field says what its rule says of the whole history. */
  lemma {:induction false} FoldMeansHistory(r: TextRules, entries: seq<Entry>)
    ensures var d := Fold(r, map[], entries);
      && FirstsMeaning(r, entries, d)
      && (forall k :: k in LAST_WINS ==> IsLast(entries, StringIn(k), Lookup(d, k)))
      && TagMeaning(entries, Lookup(d, TagKey))
      && PromptMeaning(r, HistoryTexts(entries), d)
  {
    FirstsMean(r, entries);
    forall k | k in LAST_WINS ensures IsLast(entries, StringIn(k), Lookup(Fold(r, map[], entries), k)) {
      LastMeans(r, entries, k);
    }
    TagMeans(r, entries);
    FoldPrompts(r, entries);
    PromptsMean(r, HistoryTexts(entries));
    PromptPartMeans(r, HistoryTexts(entries), Fold(r, map[], entries));
  }
}
