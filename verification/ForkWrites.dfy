/** What a fork writes and how it is listed: domains/sessions/fork_via_store.go. */
module ForkWrites {
  import opened Json
  import opened Seqs
  import opened Conversation
  import opened Summary
  import opened SessionRow
  import opened Fork
  import opened ForkProofs

  // What it is called.

  /** What a session goes by: the first that is not empty of its last custom title, its last AI title and the first
      prompt, "" if all are. */
  ghost predicate KnownAs(r: TextRules, loaded: seq<Entry>, name: string) {
    exists texts :: Says(r, loaded, texts) && FirstOf([texts[0], texts[1], texts[4]], name)
  }

  /** The fork is called what the caller says, spaces trimmed. Otherwise it is called after what the session goes by,
      or "Forked session" if that is nothing or the session is a sidechain, and " (fork)". */
  ghost predicate IsTitle(r: TextRules, w: World, given: string, loaded: seq<Entry>, title: string) {
    if w.trim(given) != "" then title == w.trim(given)
    else if OfSidechain(loaded) then title == "Forked session" + " (fork)"
    else exists name :: KnownAs(r, loaded, name) && title == OrElse(name, "Forked session") + " (fork)"
  }

  lemma {:induction false} TitleMeans(r: TextRules, w: World, given: string, sessionID: string, loaded: seq<Entry>)
    ensures IsTitle(r, w, given, loaded, TitleFor(r, w, given, sessionID, loaded))
  {
    if w.trim(given) == "" {
      var e := FoldSummary(r, None, sessionID, loaded);
      FoldMeans(r, loaded);
      SidechainMeans(r, loaded, e.data);
      TextsMean(r, loaded, e.data);
      InfoTexts(e, "");
      DerivedTitle(r, w, given, sessionID, loaded);
    }
  }

  lemma FirstOfThree(t: seq<string>)
    requires |t| == 3
    ensures FirstOf(t, OrElse(OrElse(t[0], t[1]), t[2]))
  {
  }

  lemma DerivedTitle(r: TextRules, w: World, given: string, sessionID: string, loaded: seq<Entry>)
    requires w.trim(given) == "" && Says(r, loaded, TextsOf(FoldSummary(r, None, sessionID, loaded).data))
    requires OfSidechain(loaded) <==> Get(FoldSummary(r, None, sessionID, loaded).data, Sidechain) == Bool(true)
    ensures IsTitle(r, w, given, loaded, TitleFor(r, w, given, sessionID, loaded))
  {
    var e := FoldSummary(r, None, sessionID, loaded);
    var t := TextsOf(e.data);
    var name := OrElse(OrElse(t[0], t[1]), t[4]);
    FirstOfThree([t[0], t[1], t[4]]);
    assert KnownAs(r, loaded, name);
    if !OfSidechain(loaded) {
      assert TitleFor(r, w, given, sessionID, loaded) == OrElse(name, "Forked session") + " (fork)";
    }
  }

  // What it writes.

  /** e is the copy of o: under its new uuid, linked to the copy of its nearest kept ancestor and to its logical
      parent's new uuid if it has one; stamped now if it is the last or had no time; in the fork, off any sidechain,
      naming what it was forked from; without the team fields; and otherwise as it was. */
  ghost predicate IsCopy(t: seq<Entry>, ids: map<string, string>, forkID: string, sessionID: string, now: string,
                         o: Entry, e: Entry, last: bool)
    requires Grounded(ById(t), ParentId(o), {})
  {
    && Copies(e, o, ids)
    && At(e, ParentUuid) == Link(ids, Kept(ById(t), ParentId(o), {}))
    && At(e, LogicalParentUuid) == NewLogical(ids, o)
    && At(e, Timestamp) == (if last || At(o, Timestamp) == Null then Str(now) else At(o, Timestamp))
    && At(e, SessionId) == Str(forkID) && At(e, IsSidechain) == Bool(false)
    && At(e, ForkedFrom) == Obj(map[SessionId := Str(sessionID), MessageUuid := At(o, Uuid)])
    && TeamName !in e && AgentName !in e && Slug !in e && SourceToolAssistantUuid !in e
  }

  function NewLogical(ids: map<string, string>, o: Entry): Json {
    var logical := StrAt(o, LogicalParentUuid);
    if logical == "" then At(o, LogicalParentUuid) else if logical in ids then Str(ids[logical]) else Null
  }

  lemma EntryFields(o: Entry, ids: map<string, string>, parent: Json, forkID: string, sessionID: string, ts: Json)
    requires Id(o) in ids
    ensures var e := ForkEntry(o, ids, parent, forkID, sessionID, ts);
      && At(e, LogicalParentUuid) == NewLogical(ids, o) && At(e, Timestamp) == ts
      && At(e, ForkedFrom) == Obj(map[SessionId := Str(sessionID), MessageUuid := At(o, Uuid)])
      && TeamName !in e && AgentName !in e && Slug !in e && SourceToolAssistantUuid !in e
  {
  }

  lemma CopyIs(t: seq<Entry>, ids: map<string, string>, forkID: string, sessionID: string, now: string, k: nat)
    requires AllGrounded(t) && (forall e :: e in t ==> Id(e) in ids) && k < |Keep(t, NotProgress)|
    ensures var o, last := Keep(t, NotProgress)[k], k == |Keep(t, NotProgress)| - 1;
      && Grounded(ById(t), ParentId(o), {})
      && IsCopy(t, ids, forkID, sessionID, now, o, ForkEntries(t, ids, forkID, sessionID, now)[k], last)
  {
    ForkEntriesAt(t, ids, forkID, sessionID, now, k);
    var o := Keep(t, NotProgress)[k];
    var parent, ts := Link(ids, Kept(ById(t), ParentId(o), {})), Stamp(o, k == |Keep(t, NotProgress)| - 1, now);
    ForkEntryCopies(o, ids, parent, forkID, sessionID, ts);
    EntryFields(o, ids, parent, forkID, sessionID, ts);
  }

  predicate IsReplacement(e: Entry) {
    At(e, Type) == Str("content-replacement")
  }

  predicate Names(e: Entry, forkID: string, title: string) {
    At(e, Type) == Str("custom-title") && At(e, SessionId) == Str(forkID) && At(e, CustomTitle) == Str(title)
  }

  predicate Replaces(e: Entry, forkID: string, replacements: seq<Json>) {
    IsReplacement(e) && At(e, SessionId) == Str(forkID) && At(e, Replacements) == Arr(replacements)
  }

  /** The entries start with a copy of each kept entry, in order. */
  ghost predicate AreCopies(w: World, t: seq<Entry>, forkID: string, sessionID: string, entries: seq<Entry>)
    requires AllGrounded(t)
  {
    var src := Keep(t, NotProgress);
    && |src| <= |entries|
    && forall k {:trigger entries[k]} :: 0 <= k < |src| ==>
         && Grounded(ById(t), ParentId(src[k]), {})
         && IsCopy(t, Renaming(t, w.newID), forkID, sessionID, w.now, src[k], entries[k], k == |src| - 1)
  }

  /** They go on with the replacements, in one entry if there are any, and the title. */
  ghost predicate AreExtras(r: TextRules, w: World, given: string, loaded: seq<Entry>, replacements: seq<Json>,
                            forkID: string, extras: seq<Entry>)
  {
    && |extras| == (if replacements == [] then 0 else 1) + 1
    && (replacements != [] ==> Replaces(extras[0], forkID, replacements))
    && exists title :: IsTitle(r, w, given, loaded, title) && Names(extras[|extras| - 1], forkID, title)
  }

  /** The entries of a fork: a copy of each kept entry in order, the source's replacements in one entry if it has any,
      and the title. */
  ghost predicate Writes(r: TextRules, w: World, sessionID: string, given: string, loaded: seq<Entry>, t: seq<Entry>,
                         forkID: string, entries: seq<Entry>)
    requires AllGrounded(t)
  {
    && AreCopies(w, t, forkID, sessionID, entries)
    && AreExtras(r, w, given, loaded, ReplacementsIn(loaded, sessionID), forkID, entries[|Keep(t, NotProgress)|..])
  }

  lemma CopiesAre(w: World, t: seq<Entry>, forkID: string, sessionID: string, extras: seq<Entry>)
    requires AllGrounded(t)
    ensures var copies := ForkEntries(t, Renaming(t, w.newID), forkID, sessionID, w.now);
      AreCopies(w, t, forkID, sessionID, copies + extras) && (copies + extras)[|Keep(t, NotProgress)|..] == extras
  {
    var ids, src := Renaming(t, w.newID), Keep(t, NotProgress);
    var entries := ForkEntries(t, ids, forkID, sessionID, w.now) + extras;
    forall k | 0 <= k < |src|
      ensures Grounded(ById(t), ParentId(src[k]), {})
      ensures IsCopy(t, ids, forkID, sessionID, w.now, src[k], entries[k], k == |src| - 1)
    {
      CopyIs(t, ids, forkID, sessionID, w.now, k);
    }
  }

  /** What a fork that comes back has written. */
  lemma {:induction false} ForkIs(r: TextRules, w: World, sessionID: string, opts: ForkOptions, loaded: seq<Entry>)
    requires ForkHalts(loaded, opts.upToMessageID) && ForkOf(r, w, sessionID, opts, loaded).Forked?
    ensures var fork, t := ForkOf(r, w, sessionID, opts, loaded), Selected(loaded, opts.upToMessageID).value;
      fork.id == w.newID(|t|) && Keep(t, NotProgress) != []
        && Writes(r, w, sessionID, opts.title, loaded, t, fork.id, fork.entries)
  {
    var t := Selected(loaded, opts.upToMessageID).value;
    var replacements, title := ReplacementsIn(loaded, sessionID), TitleFor(r, w, opts.title, sessionID, loaded);
    var extras := Extras(w.newID(|t|), replacements, title, w, |t| + 1);
    CopiesAre(w, t, w.newID(|t|), sessionID, extras);
    TitleMeans(r, w, opts.title, sessionID, loaded);
    ExtrasAre(w.newID(|t|), replacements, title, w, |t| + 1);
  }

  lemma ExtrasAre(forkID: string, replacements: seq<Json>, title: string, w: World, n: nat)
    ensures var x := Extras(forkID, replacements, title, w, n);
      && |x| == (if replacements == [] then 0 else 1) + 1
      && (replacements != [] ==> Replaces(x[0], forkID, replacements))
      && Names(x[|x| - 1], forkID, title)
  {
  }

  // What is copied, and when nothing is.

  /** A transcript entry that is not of a sidechain. */
  predicate OnTranscript(e: Entry) {
    && Uuid in e && e[Uuid].Str? && Type in e && e[Type].Str?
    && (e[Type].s == "user" || e[Type].s == "assistant" || e[Type].s == "progress" || e[Type].s == "system"
        || e[Type].s == "attachment")
    && !(IsSidechain in e && e[IsSidechain] == Bool(true))
  }

  lemma OnTranscriptIff(e: Entry)
    ensures Copied(e) <==> OnTranscript(e)
  {
  }

  /** The last entry has the uuid, and none before it. */
  predicate EndsWith(t: seq<Entry>, upTo: string) {
    t != [] && At(t[|t| - 1], Uuid) == Str(upTo) && forall k :: 0 <= k < |t| - 1 ==> At(t[k], Uuid) != Str(upTo)
  }

  /** t is the transcript up to and with the first entry of the asked uuid, or all of it if none is asked: its k-th
      entry was loaded at at[k]. */
  ghost predicate CutAt(loaded: seq<Entry>, upTo: string, t: seq<Entry>, at: seq<nat>) {
    && |at| == |t| && (forall k, l :: 0 <= k < l < |at| ==> at[k] < at[l])
    && (forall k :: 0 <= k < |at| ==> at[k] < |loaded| && t[k] == loaded[at[k]] && OnTranscript(t[k]))
    && (upTo == "" ==> forall i :: 0 <= i < |loaded| && OnTranscript(loaded[i]) ==> i in at)
    && (upTo != "" ==>
          EndsWith(t, upTo) && forall i :: 0 <= i <= at[|at| - 1] && OnTranscript(loaded[i]) ==> i in at)
  }

  ghost predicate Holds(loaded: seq<Entry>, upTo: string) {
    exists i :: 0 <= i < |loaded| && OnTranscript(loaded[i]) && At(loaded[i], Uuid) == Str(upTo)
  }

  lemma {:induction false} CutFromIs(t: seq<Entry>, upTo: string, i: nat)
    requires i <= |t| && forall k :: 0 <= k < i ==> At(t[k], Uuid) != Str(upTo)
    ensures match CutFrom(t, upTo, i)
      case None => forall k :: 0 <= k < |t| ==> At(t[k], Uuid) != Str(upTo)
      case Some(c) => EndsWith(c, upTo)
    decreases |t| - i
  {
    if i < |t| && At(t[i], Uuid) != Str(upTo) {
      CutFromIs(t, upTo, i + 1);
    }
  }

  lemma UpToLast(at: seq<nat>, n: nat, i: nat)
    requires 0 < n <= |at| && i in at && i <= at[n - 1] && forall k, l :: 0 <= k < l < |at| ==> at[k] < at[l]
    ensures i in at[..n]
  {
    var k :| 0 <= k < |at| && at[k] == i;
    assert k < n;
    assert at[..n][k] == i;
  }

  lemma CutAll(loaded: seq<Entry>, at: seq<nat>)
    requires KeptAt(loaded, Copied, Keep(loaded, Copied), at)
    ensures CutAt(loaded, "", Keep(loaded, Copied), at)
  {
    forall i | 0 <= i < |loaded| ensures Copied(loaded[i]) <==> OnTranscript(loaded[i]) {
      OnTranscriptIff(loaded[i]);
    }
  }

  lemma CutPart(loaded: seq<Entry>, upTo: string, at: seq<nat>, kept: seq<Entry>, n: nat)
    requires CutAt(loaded, "", kept, at) && 0 < n <= |kept| && upTo != "" && EndsWith(kept[..n], upTo)
    ensures CutAt(loaded, upTo, kept[..n], at[..n])
  {
    forall i | 0 <= i <= at[n - 1] && OnTranscript(loaded[i]) ensures i in at[..n] {
      UpToLast(at, n, i);
    }
  }

  /** What is selected is the transcript cut where it was asked; nothing is when it has no such entry. */
  lemma {:induction false} SelectedIs(loaded: seq<Entry>, upTo: string) returns (at: seq<nat>)
    ensures Selected(loaded, upTo) == None <==> upTo != "" && !Holds(loaded, upTo)
    ensures Selected(loaded, upTo).Some? ==> CutAt(loaded, upTo, Selected(loaded, upTo).value, at)
  {
    var kept := Keep(loaded, Copied);
    at := KeepAt(loaded, Copied);
    CutAll(loaded, at);
    if upTo != "" {
      CutFromIs(kept, upTo, 0);
      match CutFrom(kept, upTo, 0) {
        case None => NoneHolds(loaded, upTo, kept, at);
        case Some(c) =>
          CutPart(loaded, upTo, at, kept, |c|);
          assert OnTranscript(loaded[at[|c| - 1]]) && At(loaded[at[|c| - 1]], Uuid) == Str(upTo);
          at := at[..|c|];
      }
    }
  }

  lemma NoneHolds(loaded: seq<Entry>, upTo: string, kept: seq<Entry>, at: seq<nat>)
    requires CutAt(loaded, "", kept, at) && forall k :: 0 <= k < |kept| ==> At(kept[k], Uuid) != Str(upTo)
    ensures !Holds(loaded, upTo)
  {
    forall i | 0 <= i < |loaded| && OnTranscript(loaded[i]) ensures At(loaded[i], Uuid) != Str(upTo) {
      var k :| 0 <= k < |at| && at[k] == i;
      assert kept[k] == loaded[i];
    }
  }

  predicate AllProgress(t: seq<Entry>) {
    forall k :: 0 <= k < |t| ==> At(t[k], Type) == Str("progress")
  }

  lemma NothingKept(t: seq<Entry>)
    ensures Keep(t, NotProgress) == [] <==> AllProgress(t)
  {
    var at := KeepAt(t, NotProgress);
  }

  /** When a fork fails, and with which error: an id is not valid, the source holds nothing, the message asked for is
      not in its transcript, or there is nothing but progress to copy. */
  lemma {:induction false} ForkErrors(r: TextRules, w: World, sessionID: string, opts: ForkOptions, loaded: seq<Entry>)
    requires ForkHalts(loaded, opts.upToMessageID)
    ensures var upTo, fork := opts.upToMessageID, ForkOf(r, w, sessionID, opts, loaded);
      if !w.validID(sessionID) || (upTo != "" && !w.validID(upTo)) then fork == ForkFailed(InvalidSessionID)
      else if loaded == [] then fork == ForkFailed(SessionNotFound)
      else if forall i :: 0 <= i < |loaded| ==> !OnTranscript(loaded[i]) then fork == ForkFailed(NothingToFork)
      else if upTo != "" && !Holds(loaded, upTo) then fork == ForkFailed(MessageNotFound)
      else exists t, at ::
        CutAt(loaded, upTo, t, at) && if AllProgress(t) then fork == ForkFailed(NothingToFork) else fork.Forked?
  {
    NoTranscript(loaded);
    var at := SelectedIs(loaded, opts.upToMessageID);
    if Selected(loaded, opts.upToMessageID).Some? {
      var t := Selected(loaded, opts.upToMessageID).value;
      NothingKept(t);
      assert CutAt(loaded, opts.upToMessageID, t, at);
    }
  }

  lemma NoTranscript(loaded: seq<Entry>)
    ensures Keep(loaded, Copied) == [] <==> forall i :: 0 <= i < |loaded| ==> !OnTranscript(loaded[i])
  {
    var at := KeepAt(loaded, Copied);
    CutAll(loaded, at);
  }

  // What a listing shows of it.

  lemma TitleNotEmpty(r: TextRules, w: World, given: string, loaded: seq<Entry>, title: string)
    requires IsTitle(r, w, given, loaded, title)
    ensures title != ""
  {
  }

  lemma HeadIsFirst(texts: seq<string>, v: string)
    requires texts != [] && texts[0] != "" && FirstOf(texts, v)
    ensures v == texts[0]
  {
  }

  lemma TitledRow(r: TextRules, id: string, entries: seq<Entry>, mtime: int, path: string, title: string,
                  row: Option<SessionInfo>)
    requires RowIs(r, id, entries, mtime, path, row) && title != "" && !OfSidechain(entries)
    requires LastField(entries, CustomTitle, title)
    ensures row.Some? && row.value.customTitle == title && row.value.summary == title
  {
    var texts :| RowFrom(r, id, entries, mtime, path, texts, row);
    LastFieldUnique(entries, CustomTitle, texts[0], title);
    assert row.Some?;
    HeadIsFirst(texts, row.value.summary);
    HeadIsFirst(texts[..2], row.value.customTitle);
  }

  lemma RowExists(r: TextRules, id: string, entries: seq<Entry>, mtime: int, path: string)
    returns (row: Option<SessionInfo>)
    ensures RowIs(r, id, entries, mtime, path, row)
  {
    row := SummaryToSessionInfo(FoldSummary(r, None, id, entries).(mtimeMs := mtime), path);
    RowMeans(r, id, entries, mtime, path);
  }

  /** The row x shows the session under the title the fork is to have. */
  ghost predicate Titled(r: TextRules, w: World, given: string, loaded: seq<Entry>, x: SessionInfo) {
    IsTitle(r, w, given, loaded, x.customTitle) && x.summary == x.customTitle
  }

  lemma WrittenShows(r: TextRules, w: World, sessionID: string, given: string, loaded: seq<Entry>, t: seq<Entry>,
                     forkID: string, entries: seq<Entry>, mtime: int, path: string) returns (x: SessionInfo)
    requires AllGrounded(t) && Keep(t, NotProgress) != [] && Writes(r, w, sessionID, given, loaded, t, forkID, entries)
    ensures RowIs(r, forkID, entries, mtime, path, Some(x)) && Titled(r, w, given, loaded, x)
  {
    var extras := entries[|Keep(t, NotProgress)|..];
    var title :| IsTitle(r, w, given, loaded, title) && Names(extras[|extras| - 1], forkID, title);
    TitleNotEmpty(r, w, given, loaded, title);
    assert At(entries[0], IsSidechain) == Bool(false);
    assert At(entries[|entries| - 1], CustomTitle) == Str(title);
    assert LastField(entries, CustomTitle, title);
    var row := RowExists(r, forkID, entries, mtime, path);
    TitledRow(r, forkID, entries, mtime, path, title, row);
    x := row.value;
  }

  /** The fork is listed under its title: folded from what it wrote, its row shows the trimmed title of the caller, or
      the one made from what the source goes by. */
  lemma {:induction false} ForkShown(r: TextRules, w: World, sessionID: string, opts: ForkOptions, loaded: seq<Entry>,
                                     mtime: int, path: string) returns (x: SessionInfo)
    requires ForkHalts(loaded, opts.upToMessageID) && ForkOf(r, w, sessionID, opts, loaded).Forked?
    ensures var fork := ForkOf(r, w, sessionID, opts, loaded);
      RowIs(r, fork.id, fork.entries, mtime, path, Some(x)) && Titled(r, w, opts.title, loaded, x)
  {
    var fork, t := ForkOf(r, w, sessionID, opts, loaded), Selected(loaded, opts.upToMessageID).value;
    ForkIs(r, w, sessionID, opts, loaded);
    x := WrittenShows(r, w, sessionID, opts.title, loaded, t, fork.id, fork.entries, mtime, path);
  }

  // Its replacements.

  lemma {:induction false} ReplacementsConcat(a: seq<Entry>, b: seq<Entry>, sessionID: string)
    ensures ReplacementsIn(a + b, sessionID) == ReplacementsIn(a, sessionID) + ReplacementsIn(b, sessionID)
  {
    if b == [] {
      assert a + b == a;
    } else {
      var front, last := b[..|b| - 1], b[|b| - 1];
      ReplacementsConcat(a, front, sessionID);
      ReplacementsEnd(a + front, last, sessionID);
      ReplacementsEnd(front, last, sessionID);
      FrontLast(b);
      Associative(a, front, [last]);
      Associative(ReplacementsIn(a, sessionID), ReplacementsIn(front, sessionID), Held(last, sessionID));
    }
  }

  lemma ReplacementsEnd(front: seq<Entry>, last: Entry, sessionID: string)
    ensures ReplacementsIn(front + [last], sessionID) == ReplacementsIn(front, sessionID) + Held(last, sessionID)
  {
    assert (front + [last])[..|front|] == front;
  }

  /** What one entry holds for the session. */
  function Held(e: Entry, sessionID: string): seq<Json> {
    if IsReplacement(e) && At(e, SessionId) == Str(sessionID) && At(e, Replacements).Arr? then At(e, Replacements).items
    else []
  }

  /** The replacements of a session are what its entries hold, in order. */
  lemma {:induction false} ReplacementsAre(a: seq<Entry>, e: Entry, b: seq<Entry>, sessionID: string)
    ensures ReplacementsIn(a + [e] + b, sessionID)
      == ReplacementsIn(a, sessionID) + Held(e, sessionID) + ReplacementsIn(b, sessionID)
    ensures ReplacementsIn([], sessionID) == []
  {
    ReplacementsConcat(a + [e], b, sessionID);
    ReplacementsConcat(a, [e], sessionID);
    assert [e][..0] == [];
  }

  lemma {:induction false} NoReplacements(entries: seq<Entry>, sessionID: string)
    requires forall i :: 0 <= i < |entries| ==> !IsReplacement(entries[i])
    ensures ReplacementsIn(entries, sessionID) == []
  {
    if entries != [] {
      NoReplacements(entries[..|entries| - 1], sessionID);
    }
  }

  lemma CopyReplacesNone(e: Entry, o: Entry, ids: map<string, string>)
    requires Copies(e, o, ids) && InTranscript(o)
    ensures !IsReplacement(e)
  {
    CopyReadsSame(e, o, ids);
    assert StrAt(e, Type) in ["user", "assistant", "progress", "system", "attachment"];
  }

  lemma CopiesReplaceNone(w: World, t: seq<Entry>, forkID: string, sessionID: string, entries: seq<Entry>)
    requires AllGrounded(t) && AreCopies(w, t, forkID, sessionID, entries)
    requires forall i :: 0 <= i < |t| ==> InTranscript(t[i])
    ensures |Keep(t, NotProgress)| <= |entries|
    ensures forall i :: 0 <= i < |Keep(t, NotProgress)| ==> !IsReplacement(entries[i])
  {
    var src := Keep(t, NotProgress);
    KeepIn(t, NotProgress);
    forall i | 0 <= i < |src| ensures !IsReplacement(entries[i]) {
      assert src[i] in src && src[i] in t;
      CopyReplacesNone(entries[i], src[i], Renaming(t, w.newID));
    }
  }

  lemma {:induction false} ExtrasReplace(r: TextRules, w: World, given: string, loaded: seq<Entry>,
                                         replacements: seq<Json>, forkID: string, extras: seq<Entry>)
    requires AreExtras(r, w, given, loaded, replacements, forkID, extras)
    ensures ReplacementsIn(extras, forkID) == replacements
    ensures forall i :: 0 <= i < |extras| ==> (IsReplacement(extras[i]) <==> i == |extras| - 2)
  {
    var title :| IsTitle(r, w, given, loaded, title) && Names(extras[|extras| - 1], forkID, title);
    NameReplacesNone(extras[|extras| - 1], forkID, title);
    if replacements == [] {
      RestReplaces(extras, 1, forkID);
    } else {
      assert extras == [] + [extras[0]] + [extras[1]];
      ReplacementsAre([], extras[0], [extras[1]], forkID);
      NoReplacements([extras[1]], forkID);
    }
  }

  lemma NameReplacesNone(e: Entry, forkID: string, title: string)
    requires Names(e, forkID, title)
    ensures !IsReplacement(e)
  {
    assert "custom-title"[1] != "content-replacement"[1];
  }

  /** The fork holds the replacements of its source, in order, in one entry if there are any. */
  lemma {:induction false} ForkKeepsReplacements(r: TextRules, w: World, sessionID: string, opts: ForkOptions,
                                                 loaded: seq<Entry>)
    requires ForkHalts(loaded, opts.upToMessageID) && ForkOf(r, w, sessionID, opts, loaded).Forked?
    ensures var fork, replacements := ForkOf(r, w, sessionID, opts, loaded), ReplacementsIn(loaded, sessionID);
      ReplacementsIn(fork.entries, fork.id) == replacements && InOneEntry(fork.entries, replacements != [])
  {
    var fork, t := ForkOf(r, w, sessionID, opts, loaded), Selected(loaded, opts.upToMessageID).value;
    ForkIs(r, w, sessionID, opts, loaded);
    SelectedInTranscript(loaded, opts.upToMessageID);
    WrittenReplaces(r, w, sessionID, opts.title, loaded, t, fork.id, fork.entries);
  }

  /** The last entry but one is the only one that holds replacements, if any does. */
  ghost predicate InOneEntry(entries: seq<Entry>, any: bool) {
    forall i :: 0 <= i < |entries| ==> (IsReplacement(entries[i]) <==> any && i == |entries| - 2)
  }

  lemma RestReplaces(entries: seq<Entry>, n: nat, sessionID: string)
    requires n <= |entries| && forall i :: 0 <= i < n ==> !IsReplacement(entries[i])
    ensures ReplacementsIn(entries, sessionID) == ReplacementsIn(entries[n..], sessionID)
  {
    NoReplacements(entries[..n], sessionID);
    ReplacementsConcat(entries[..n], entries[n..], sessionID);
    assert entries == entries[..n] + entries[n..];
  }

  lemma WrittenReplaces(r: TextRules, w: World, sessionID: string, given: string, loaded: seq<Entry>, t: seq<Entry>,
                        forkID: string, entries: seq<Entry>)
    requires AllGrounded(t) && Writes(r, w, sessionID, given, loaded, t, forkID, entries)
    requires forall i :: 0 <= i < |t| ==> InTranscript(t[i])
    ensures var replacements := ReplacementsIn(loaded, sessionID);
      ReplacementsIn(entries, forkID) == replacements && InOneEntry(entries, replacements != [])
  {
    var n := |Keep(t, NotProgress)|;
    CopiesReplaceNone(w, t, forkID, sessionID, entries);
    ExtrasReplace(r, w, given, loaded, ReplacementsIn(loaded, sessionID), forkID, entries[n..]);
    RestReplaces(entries, n, forkID);
    OneEntry(entries, n, ReplacementsIn(loaded, sessionID) != []);
  }

  lemma OneEntry(entries: seq<Entry>, n: nat, any: bool)
    requires n <= |entries| && (any ==> n == |entries| - 2) && (!any ==> n == |entries| - 1)
    requires forall i :: 0 <= i < n ==> !IsReplacement(entries[i])
    requires forall i :: 0 <= i < |entries[n..]| ==> (IsReplacement(entries[n..][i]) <==> i == |entries[n..]| - 2)
    ensures InOneEntry(entries, any)
  {
    forall i | 0 <= i < |entries| ensures IsReplacement(entries[i]) <==> any && i == |entries| - 2 {
      if i >= n {
        assert entries[i] == entries[n..][i - n];
      }
    }
  }
}
