/** What a listing shows of a session, read off its history: domains/sessions/summary.go. */
module SessionRow {
  import opened Json
  import opened Summary

  // What a history says.

  /** v is the string of the last entry that has one in the field, "" if none has. */
  ghost predicate LastField(entries: seq<Entry>, f: Field, v: string) {
    || (exists i :: 0 <= i < |entries| && At(entries[i], f) == Str(v)
                    && forall j :: i < j < |entries| ==> !At(entries[j], f).Str?)
    || (v == "" && forall i :: 0 <= i < |entries| ==> !At(entries[i], f).Str?)
  }

  /** v is the first non-empty string in the field, "" if there is none. */
  ghost predicate FirstField(entries: seq<Entry>, f: Field, v: string) {
    || (exists i :: 0 <= i < |entries| && StrAt(entries[i], f) == v != ""
                    && forall j :: 0 <= j < i ==> StrAt(entries[j], f) == "")
    || (v == "" && forall i :: 0 <= i < |entries| ==> StrAt(entries[i], f) == "")
  }

  /** v is what the last tag entry says, "" if it clears the tag or there is none. */
  ghost predicate LastTag(entries: seq<Entry>, v: string) {
    || (exists i :: 0 <= i < |entries| && At(entries[i], Type) == Str("tag") && StrAt(entries[i], Tag) == v
                    && forall j :: i < j < |entries| ==> At(entries[j], Type) != Str("tag"))
    || (v == "" && forall i :: 0 <= i < |entries| ==> At(entries[i], Type) != Str("tag"))
  }

  predicate TimeAt(r: TextRules, e: Entry, n: int) {
    At(e, Timestamp).Str? && r.epoch(At(e, Timestamp).s) == Some(n)
  }

  predicate NoTime(r: TextRules, e: Entry) {
    At(e, Timestamp).Str? ==> r.epoch(At(e, Timestamp).s) == None
  }

  /** n is the first timestamp that parses, 0 if none does. */
  ghost predicate FirstTime(r: TextRules, entries: seq<Entry>, n: int) {
    || (exists i :: 0 <= i < |entries| && TimeAt(r, entries[i], n) && forall j :: 0 <= j < i ==> NoTime(r, entries[j]))
    || (n == 0 && forall i :: 0 <= i < |entries| ==> NoTime(r, entries[i]))
  }

  /** v is the first real prompt typed, shortened, or without one the first command named. */
  ghost predicate FirstShown(r: TextRules, texts: seq<string>, v: string) {
    if exists i :: 0 <= i < |texts| && IsPrompt(r, texts[i])
    then exists i :: 0 <= i < |texts| && FirstPromptAt(r, texts, i) && v == r.shorten(r.clean(texts[i]))
    else FallbackMeaning(r, texts, v)
  }

  /** v is the first of the texts that is not empty, "" if all are. */
  ghost predicate FirstOf(texts: seq<string>, v: string) {
    || (exists i :: 0 <= i < |texts| && texts[i] == v != "" && forall j :: 0 <= j < i ==> texts[j] == "")
    || (v == "" && forall i :: 0 <= i < |texts| ==> texts[i] == "")
  }

  ghost predicate SaysTitles(entries: seq<Entry>, custom: string, ai: string) {
    LastField(entries, CustomTitle, custom) && LastField(entries, AiTitle, ai)
  }

  ghost predicate SaysHints(entries: seq<Entry>, prompt: string, hint: string) {
    LastField(entries, LastPrompt, prompt) && LastField(entries, SummaryText, hint)
  }

  /** The five texts a session may be shown by: custom title, AI title, last prompt, hint and first prompt. */
  ghost predicate Says(r: TextRules, entries: seq<Entry>, texts: seq<string>) {
    && |texts| == 5
    && SaysTitles(entries, texts[0], texts[1]) && SaysHints(entries, texts[2], texts[3])
    && FirstShown(r, HistoryTexts(entries), texts[4])
  }

  predicate OfSidechain(entries: seq<Entry>) {
    entries != [] && At(entries[0], IsSidechain) == Bool(true)
  }

  // The row of a session.

  ghost predicate RowShows(r: TextRules, entries: seq<Entry>, path: string, texts: seq<string>, x: SessionInfo)
    requires |texts| == 5
  {
    && FirstOf(texts, x.summary) && FirstOf(texts[..2], x.customTitle) && x.firstPrompt == texts[4]
    && LastField(entries, GitBranch, x.gitBranch) && LastTag(entries, x.tag) && FirstTime(r, entries, x.createdAt)
    && exists cwd :: FirstField(entries, Cwd, cwd) && x.cwd == if cwd == "" then path else cwd
  }

  /** The session has a row exactly when it is no sidechain and one of its texts is not empty. */
  ghost predicate RowIs(r: TextRules, id: string, entries: seq<Entry>, mtime: int, path: string,
                        row: Option<SessionInfo>)
  {
    exists texts :: RowFrom(r, id, entries, mtime, path, texts, row)
  }

  ghost predicate RowFrom(r: TextRules, id: string, entries: seq<Entry>, mtime: int, path: string, texts: seq<string>,
                          row: Option<SessionInfo>)
  {
    && Says(r, entries, texts)
    && (row.Some? <==> !OfSidechain(entries) && exists i :: 0 <= i < 5 && texts[i] != "")
    && (row.Some? ==>
          && row.value.sessionID == id && row.value.lastModified == mtime
          && RowShows(r, entries, path, texts, row.value))
  }

  // The summary kept beside the transcript gives it.

  /** The data is what the history says of each field. */
  ghost predicate Means(r: TextRules, entries: seq<Entry>, d: Data) {
    && FirstsMeaning(r, entries, d)
    && (forall k {:trigger LastSays(entries, d, k)} :: LastWins(k) ==> LastSays(entries, d, k))
    && TagMeaning(entries, Lookup(d, TagKey))
    && PromptMeaning(r, HistoryTexts(entries), d)
  }

  ghost predicate LastSays(entries: seq<Entry>, d: Data, k: Key) {
    IsLast(entries, StringIn(k), Lookup(d, k))
  }

  predicate LastWins(k: Key) {
    k.CustomTitleKey? || k.AiTitleKey? || k.LastPromptKey? || k.SummaryHint? || k.Branch?
  }

  function FieldOf(k: Key): Field {
    match k
    case CustomTitleKey => CustomTitle
    case AiTitleKey => AiTitle
    case LastPromptKey => LastPrompt
    case SummaryHint => SummaryText
    case _ => GitBranch
  }

  lemma StringInField(k: Key, e: Entry)
    requires LastWins(k)
    ensures StringIn(k)(e) == StringOf(e, FieldOf(k))
  {
  }

  lemma IsLastField(entries: seq<Entry>, k: Key, v: Option<Json>)
    requires LastWins(k) && IsLast(entries, StringIn(k), v)
    ensures LastField(entries, FieldOf(k), if v.Some? && v.value.Str? then v.value.s else "")
  {
    forall i | 0 <= i < |entries| ensures StringIn(k)(entries[i]) == StringOf(entries[i], FieldOf(k)) {
      StringInField(k, entries[i]);
    }
    if v.Some? {
      var i :| 0 <= i < |entries| && StringIn(k)(entries[i]) == v
               && forall j :: i < j < |entries| ==> StringIn(k)(entries[j]).None?;
      assert StringOf(entries[i], FieldOf(k)) == v;
    }
  }

  lemma LastFieldMeans(r: TextRules, entries: seq<Entry>, d: Data, k: Key, f: Field)
    requires Means(r, entries, d) && LastWins(k) && f == FieldOf(k)
    ensures LastField(entries, f, Summary.Text(d, k))
  {
    assert LastSays(entries, d, k);
    IsLastField(entries, k, Lookup(d, k));
  }

  lemma CwdMeans(r: TextRules, entries: seq<Entry>, d: Data)
    requires Means(r, entries, d)
    ensures FirstField(entries, Cwd, Summary.Text(d, WorkDir))
  {
    if Lookup(d, WorkDir).Some? {
      var i :| 0 <= i < |entries| && CwdOf(entries[i]) == Lookup(d, WorkDir)
               && forall j :: 0 <= j < i ==> CwdOf(entries[j]).None?;
      assert StrAt(entries[i], Cwd) == Summary.Text(d, WorkDir);
    }
  }

  lemma TagTextMeans(r: TextRules, entries: seq<Entry>, d: Data)
    requires Means(r, entries, d)
    ensures LastTag(entries, Summary.Text(d, TagKey))
  {
    var v :| IsLast(entries, TagOf, v) && Lookup(d, TagKey) == if v == Some(Str("")) then None else v;
    if v.Some? {
      var i :| 0 <= i < |entries| && TagOf(entries[i]) == v
               && forall j :: i < j < |entries| ==> TagOf(entries[j]).None?;
      assert At(entries[i], Type) == Str("tag") && StrAt(entries[i], Tag) == Summary.Text(d, TagKey);
    } else {
      forall i | 0 <= i < |entries| ensures At(entries[i], Type) != Str("tag") {
        assert TagOf(entries[i]).None?;
      }
    }
  }

  function CreatedIn(d: Data): int {
    if Get(d, CreatedAt).Num? then Get(d, CreatedAt).n else 0
  }

  lemma TimeMeans(r: TextRules, entries: seq<Entry>, d: Data)
    requires Means(r, entries, d)
    ensures FirstTime(r, entries, CreatedIn(d))
  {
    assert forall i :: 0 <= i < |entries| ==> EpochIn(r)(entries[i]) == EpochOf(r, entries[i]);
    if Lookup(d, CreatedAt).Some? {
      var i :| 0 <= i < |entries| && EpochIn(r)(entries[i]) == Lookup(d, CreatedAt)
               && forall j :: 0 <= j < i ==> EpochIn(r)(entries[j]).None?;
      assert TimeAt(r, entries[i], CreatedIn(d));
      forall j | 0 <= j < i ensures NoTime(r, entries[j]) {
        assert EpochIn(r)(entries[j]).None?;
      }
    }
  }

  function PromptOf(d: Data): string {
    if Locked(d) then Summary.Text(d, FirstPrompt) else Summary.Text(d, CommandFallback)
  }

  lemma PromptMeans(r: TextRules, entries: seq<Entry>, d: Data)
    requires Means(r, entries, d)
    ensures FirstShown(r, HistoryTexts(entries), PromptOf(d))
  {
  }

  lemma SidechainMeans(r: TextRules, entries: seq<Entry>, d: Data)
    requires Means(r, entries, d)
    ensures Get(d, Sidechain) == Bool(true) <==> OfSidechain(entries)
  {
    if entries != [] {
      assert SidechainOf(entries[0]).Some?;
    }
  }

  function TextsOf(d: Data): seq<string> {
    [Summary.Text(d, CustomTitleKey), Summary.Text(d, AiTitleKey), Summary.Text(d, LastPromptKey),
     Summary.Text(d, SummaryHint), PromptOf(d)]
  }

  lemma TitlesMean(r: TextRules, entries: seq<Entry>, d: Data)
    requires Means(r, entries, d)
    ensures SaysTitles(entries, Summary.Text(d, CustomTitleKey), Summary.Text(d, AiTitleKey))
  {
    LastFieldMeans(r, entries, d, CustomTitleKey, CustomTitle);
    LastFieldMeans(r, entries, d, AiTitleKey, AiTitle);
  }

  lemma HintsMean(r: TextRules, entries: seq<Entry>, d: Data)
    requires Means(r, entries, d)
    ensures SaysHints(entries, Summary.Text(d, LastPromptKey), Summary.Text(d, SummaryHint))
  {
    LastFieldMeans(r, entries, d, LastPromptKey, LastPrompt);
    LastFieldMeans(r, entries, d, SummaryHint, SummaryText);
  }

  lemma TextsMean(r: TextRules, entries: seq<Entry>, d: Data)
    requires Means(r, entries, d)
    ensures Says(r, entries, TextsOf(d))
  {
    TitlesMean(r, entries, d);
    HintsMean(r, entries, d);
    PromptMeans(r, entries, d);
  }

  lemma FirstOfFive(t: seq<string>, v: string)
    requires |t| == 5
    requires v == if t[0] != "" then t[0] else if t[1] != "" then t[1] else if t[2] != "" then t[2]
                  else if t[3] != "" then t[3] else t[4]
    ensures FirstOf(t, v)
    ensures v != "" <==> exists i :: 0 <= i < 5 && t[i] != ""
  {
  }

  lemma FirstOfTwo(t: seq<string>, v: string)
    requires |t| == 2 && v == if t[0] != "" then t[0] else t[1]
    ensures FirstOf(t, v)
  {
  }

  lemma InfoTexts(e: SummaryEntry, path: string)
    ensures var t, row := TextsOf(e.data), SummaryToSessionInfo(e, path);
      && (row.Some? <==> Get(e.data, Sidechain) != Bool(true) && exists i :: 0 <= i < 5 && t[i] != "")
      && (row.Some? ==>
            FirstOf(t, row.value.summary) && FirstOf(t[..2], row.value.customTitle) && row.value.firstPrompt == t[4])
  {
    var t := TextsOf(e.data);
    var v := if t[0] != "" then t[0] else if t[1] != "" then t[1] else if t[2] != "" then t[2]
             else if t[3] != "" then t[3] else t[4];
    FirstOfFive(t, v);
    FirstOfTwo(t[..2], if t[0] != "" then t[0] else t[1]);
  }

  lemma InfoColumns(r: TextRules, e: SummaryEntry, entries: seq<Entry>, path: string, x: SessionInfo)
    requires Means(r, entries, e.data) && SummaryToSessionInfo(e, path) == Some(x)
    ensures x.sessionID == e.sessionID && x.lastModified == e.mtimeMs
    ensures LastField(entries, GitBranch, x.gitBranch) && LastTag(entries, x.tag) && FirstTime(r, entries, x.createdAt)
    ensures exists cwd :: FirstField(entries, Cwd, cwd) && x.cwd == if cwd == "" then path else cwd
  {
    LastFieldMeans(r, entries, e.data, Branch, GitBranch);
    CwdMeans(r, entries, e.data);
    TagTextMeans(r, entries, e.data);
    TimeMeans(r, entries, e.data);
    var cwd := Summary.Text(e.data, WorkDir);
    assert FirstField(entries, Cwd, cwd) && x.cwd == if cwd == "" then path else cwd;
  }

  lemma InfoMeans(r: TextRules, e: SummaryEntry, entries: seq<Entry>, path: string)
    requires Means(r, entries, e.data)
    ensures RowIs(r, e.sessionID, entries, e.mtimeMs, path, SummaryToSessionInfo(e, path))
  {
    var row := SummaryToSessionInfo(e, path);
    InfoTexts(e, path);
    if row.Some? {
      InfoColumns(r, e, entries, path, row.value);
    }
    TextsMean(r, entries, e.data);
    SidechainMeans(r, entries, e.data);
    assert RowFrom(r, e.sessionID, entries, e.mtimeMs, path, TextsOf(e.data), row);
  }

  lemma FoldMeans(r: TextRules, entries: seq<Entry>)
    ensures Means(r, entries, Fold(r, map[], entries))
  {
    FoldMeansHistory(r, entries);
    forall k | LastWins(k) ensures LastSays(entries, Fold(r, map[], entries), k) {
      LastMeans(r, entries, k);
    }
  }

  /** The row a history gives: it is there exactly when the first entry is no sidechain and one of the five texts is
      not empty; it shows the first of them that is not; and every other column is its whole-history value. */
  lemma {:induction false} RowMeans(r: TextRules, id: string, entries: seq<Entry>, mtime: int, path: string)
    ensures var e := FoldSummary(r, None, id, entries).(mtimeMs := mtime);
      RowIs(r, id, entries, mtime, path, SummaryToSessionInfo(e, path))
  {
    FoldMeans(r, entries);
    InfoMeans(r, FoldSummary(r, None, id, entries).(mtimeMs := mtime), entries, path);
  }

  // And the history decides the row.

  lemma LastFieldUnique(entries: seq<Entry>, f: Field, v: string, w: string)
    requires LastField(entries, f, v) && LastField(entries, f, w)
    ensures v == w
  {
    if exists i :: 0 <= i < |entries| && At(entries[i], f).Str? {
      var i :| 0 <= i < |entries| && At(entries[i], f) == Str(v)
               && forall j :: i < j < |entries| ==> !At(entries[j], f).Str?;
      var k :| 0 <= k < |entries| && At(entries[k], f) == Str(w)
               && forall j :: k < j < |entries| ==> !At(entries[j], f).Str?;
      assert i == k;
    }
  }

  lemma FirstFieldUnique(entries: seq<Entry>, f: Field, v: string, w: string)
    requires FirstField(entries, f, v) && FirstField(entries, f, w)
    ensures v == w
  {
    if exists i :: 0 <= i < |entries| && StrAt(entries[i], f) != "" {
      var i :| 0 <= i < |entries| && StrAt(entries[i], f) == v != ""
               && forall j :: 0 <= j < i ==> StrAt(entries[j], f) == "";
      var k :| 0 <= k < |entries| && StrAt(entries[k], f) == w != ""
               && forall j :: 0 <= j < k ==> StrAt(entries[j], f) == "";
      assert i == k;
    }
  }

  lemma LastTagUnique(entries: seq<Entry>, v: string, w: string)
    requires LastTag(entries, v) && LastTag(entries, w)
    ensures v == w
  {
    if exists i :: 0 <= i < |entries| && At(entries[i], Type) == Str("tag") {
      var i :| 0 <= i < |entries| && At(entries[i], Type) == Str("tag") && StrAt(entries[i], Tag) == v
               && forall j :: i < j < |entries| ==> At(entries[j], Type) != Str("tag");
      var k :| 0 <= k < |entries| && At(entries[k], Type) == Str("tag") && StrAt(entries[k], Tag) == w
               && forall j :: k < j < |entries| ==> At(entries[j], Type) != Str("tag");
      assert i == k;
    }
  }

  lemma FirstTimeUnique(r: TextRules, entries: seq<Entry>, n: int, m: int)
    requires FirstTime(r, entries, n) && FirstTime(r, entries, m)
    ensures n == m
  {
    if exists i :: 0 <= i < |entries| && !NoTime(r, entries[i]) {
      var i :| 0 <= i < |entries| && TimeAt(r, entries[i], n) && forall j :: 0 <= j < i ==> NoTime(r, entries[j]);
      var k :| 0 <= k < |entries| && TimeAt(r, entries[k], m) && forall j :: 0 <= j < k ==> NoTime(r, entries[j]);
      assert i == k;
    }
  }

  lemma FirstOfUnique(texts: seq<string>, v: string, w: string)
    requires FirstOf(texts, v) && FirstOf(texts, w)
    ensures v == w
  {
    if exists i :: 0 <= i < |texts| && texts[i] != "" {
      var i :| 0 <= i < |texts| && texts[i] == v != "" && forall j :: 0 <= j < i ==> texts[j] == "";
      var k :| 0 <= k < |texts| && texts[k] == w != "" && forall j :: 0 <= j < k ==> texts[j] == "";
      assert i == k;
    }
  }

  lemma FallbackUnique(r: TextRules, texts: seq<string>, v: string, w: string)
    requires FallbackMeaning(r, texts, v) && FallbackMeaning(r, texts, w)
    ensures v == w
  {
    if v != "" && w != "" {
      var i :| 0 <= i < |texts| && NamesCommand(r, texts[i], v)
               && forall j :: 0 <= j < i && IsCommand(r, texts[j]) ==> NamesCommand(r, texts[j], "");
      var k :| 0 <= k < |texts| && NamesCommand(r, texts[k], w)
               && forall j :: 0 <= j < k && IsCommand(r, texts[j]) ==> NamesCommand(r, texts[j], "");
      assert i == k;
    }
  }

  lemma FirstShownUnique(r: TextRules, texts: seq<string>, v: string, w: string)
    requires FirstShown(r, texts, v) && FirstShown(r, texts, w)
    ensures v == w
  {
    if exists i :: 0 <= i < |texts| && IsPrompt(r, texts[i]) {
      var i :| 0 <= i < |texts| && FirstPromptAt(r, texts, i) && v == r.shorten(r.clean(texts[i]));
      var k :| 0 <= k < |texts| && FirstPromptAt(r, texts, k) && w == r.shorten(r.clean(texts[k]));
      assert i == k;
    } else {
      FallbackUnique(r, texts, v, w);
    }
  }

  lemma SaysUnique(r: TextRules, entries: seq<Entry>, t: seq<string>, u: seq<string>)
    requires Says(r, entries, t) && Says(r, entries, u)
    ensures t == u
  {
    LastFieldUnique(entries, CustomTitle, t[0], u[0]);
    LastFieldUnique(entries, AiTitle, t[1], u[1]);
    LastFieldUnique(entries, LastPrompt, t[2], u[2]);
    LastFieldUnique(entries, SummaryText, t[3], u[3]);
    FirstShownUnique(r, HistoryTexts(entries), t[4], u[4]);
  }

  lemma ShowsUnique(r: TextRules, entries: seq<Entry>, path: string, texts: seq<string>, x: SessionInfo, y: SessionInfo)
    requires |texts| == 5 && RowShows(r, entries, path, texts, x) && RowShows(r, entries, path, texts, y)
    requires x.sessionID == y.sessionID && x.lastModified == y.lastModified
    ensures x == y
  {
    FirstOfUnique(texts, x.summary, y.summary);
    FirstOfUnique(texts[..2], x.customTitle, y.customTitle);
    LastFieldUnique(entries, GitBranch, x.gitBranch, y.gitBranch);
    LastTagUnique(entries, x.tag, y.tag);
    FirstTimeUnique(r, entries, x.createdAt, y.createdAt);
    var c :| FirstField(entries, Cwd, c) && x.cwd == if c == "" then path else c;
    var d :| FirstField(entries, Cwd, d) && y.cwd == if d == "" then path else d;
    FirstFieldUnique(entries, Cwd, c, d);
  }

  /** No other row fits. */
  lemma {:induction false} RowUnique(r: TextRules, id: string, entries: seq<Entry>, mtime: int, path: string,
                                     a: Option<SessionInfo>, b: Option<SessionInfo>)
    requires RowIs(r, id, entries, mtime, path, a) && RowIs(r, id, entries, mtime, path, b)
    ensures a == b
  {
    var t :| RowFrom(r, id, entries, mtime, path, t, a);
    var u :| RowFrom(r, id, entries, mtime, path, u, b);
    SaysUnique(r, entries, t, u);
    if a.Some? {
      ShowsUnique(r, entries, path, t, a.value, b.value);
    }
  }
}
