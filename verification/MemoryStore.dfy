/** The in-memory session store and its summary sidecar: domains/sessions/memory_store.go. */
module MemoryStore {
  import opened Json
  import opened Summary
  import opened Order

  datatype SessionKey = SessionKey(projectKey: string, sessionID: string, subpath: string)

  datatype Transcript = Transcript(entries: seq<Entry>, mtimeMs: int)

  datatype ListEntry = ListEntry(sessionID: string, mtimeMs: int)

  /** A store's fields as a value. */
  datatype State = State(items: map<SessionKey, Transcript>, summaries: map<(string, string), SummaryEntry>,
      lastMtime: int)

  const EMPTY := State(map[], map[], 0)

  function EntriesAt(s: State, key: SessionKey): seq<Entry> {
    if key in s.items then s.items[key].entries else []
  }

  function AppendTo(r: TextRules, s: State, key: SessionKey, entries: seq<Entry>, now: int): State {
    if entries == [] then s
    else
      var mtime := if now > s.lastMtime + 1 then now else s.lastMtime + 1;
      var sk := (key.projectKey, key.sessionID);
      var prev := if sk in s.summaries then Some(s.summaries[sk]) else None;
      State(
        s.items[key := Transcript(EntriesAt(s, key) + entries, mtime)],
        if key.subpath == "" then s.summaries[sk := FoldSummary(r, prev, key.sessionID, entries).(mtimeMs := mtime)]
        else s.summaries,
        mtime)
  }

  predicate SameSession(k: SessionKey, key: SessionKey) {
    k.projectKey == key.projectKey && k.sessionID == key.sessionID
  }

  function DeleteFrom(s: State, key: SessionKey): State {
    if key.subpath != "" then s.(items := s.items - {key})
    else s.(summaries := s.summaries - {(key.projectKey, key.sessionID)},
            items := map k | k in s.items && !SameSession(k, key) :: s.items[k])
  }

  /** The sidecar agrees with the transcripts: every main transcript has a summary, it is the fold of
      the stored entries from scratch, and it carries the transcript's own mtime. */
  ghost predicate Agrees(r: TextRules, s: State) {
    && (forall p, i :: (p, i) in s.summaries <==> SessionKey(p, i, "") in s.items)
    && (forall k :: k in s.items ==> s.items[k].entries != [] && s.items[k].mtimeMs <= s.lastMtime)
    && (forall k :: k in s.items && k.subpath == "" ==> Folded(r, s, k))
  }

  ghost predicate Folded(r: TextRules, s: State, k: SessionKey)
    requires k in s.items
  {
    (k.projectKey, k.sessionID) in s.summaries &&
    s.summaries[(k.projectKey, k.sessionID)]
      == FoldSummary(r, None, k.sessionID, s.items[k].entries).(mtimeMs := s.items[k].mtimeMs)
  }

  lemma AppendAgrees(r: TextRules, s: State, key: SessionKey, entries: seq<Entry>, now: int)
    requires Agrees(r, s)
    ensures Agrees(r, AppendTo(r, s, key, entries, now))
  {
    var s' := AppendTo(r, s, key, entries, now);
    if entries != [] {
      forall k | k in s'.items && k.subpath == "" ensures Folded(r, s', k) {
        if k == key {
          AppendFolds(r, s, key, entries, now);
        } else {
          assert Folded(r, s, k);
        }
      }
    }
  }

  /** The appended session's summary is the fold of all its entries. */
  lemma AppendFolds(r: TextRules, s: State, key: SessionKey, entries: seq<Entry>, now: int)
    requires Agrees(r, s) && entries != [] && key.subpath == ""
    ensures key in AppendTo(r, s, key, entries, now).items && Folded(r, AppendTo(r, s, key, entries, now), key)
  {
    var sk := (key.projectKey, key.sessionID);
    if key in s.items {
      assert Folded(r, s, key);
      FoldsOn(r, Some(s.summaries[sk]), key.sessionID, s.items[key].entries, entries, s.items[key].mtimeMs);
    } else {
      assert sk !in s.summaries;
      FoldsOn(r, None, key.sessionID, [], entries, 0);
    }
  }

  /** Folding more entries onto a summary of those before. */
  lemma FoldsOn(r: TextRules, prev: Option<SummaryEntry>, id: string, before: seq<Entry>, more: seq<Entry>, m: int)
    requires match prev
      case None => before == []
      case Some(p) => p == FoldSummary(r, None, id, before).(mtimeMs := m)
    ensures FoldSummary(r, prev, id, more).data == FoldSummary(r, None, id, before + more).data
      && FoldSummary(r, prev, id, more).sessionID == id
  {
    FoldConcat(r, map[], before, more);
  }

  lemma DeleteAgrees(r: TextRules, s: State, key: SessionKey)
    requires Agrees(r, s)
    ensures Agrees(r, DeleteFrom(s, key))
  {
    var s' := DeleteFrom(s, key);
    forall k | k in s'.items && k.subpath == "" ensures Folded(r, s', k) {
      assert Folded(r, s, k);
    }
  }

  datatype Op = AppendOp(key: SessionKey, entries: seq<Entry>, now: int) | DeleteOp(key: SessionKey)

  function Run(r: TextRules, s: State, ops: seq<Op>): State {
    if ops == [] then s
    else
      var s' := Run(r, s, ops[..|ops| - 1]);
      match ops[|ops| - 1]
      case AppendOp(key, entries, now) => AppendTo(r, s', key, entries, now)
      case DeleteOp(key) => DeleteFrom(s', key)
  }

  /** In every state reachable by appends and deletes, under any clock, the incrementally kept
      summaries are the folds of what is stored. */
  lemma {:induction false} ReachableAgrees(r: TextRules, ops: seq<Op>)
    ensures Agrees(r, Run(r, EMPTY, ops))
  {
    if ops != [] {
      var s := Run(r, EMPTY, ops[..|ops| - 1]);
      ReachableAgrees(r, ops[..|ops| - 1]);
      match ops[|ops| - 1] {
        case AppendOp(key, entries, now) => AppendAgrees(r, s, key, entries, now);
        case DeleteOp(key) => DeleteAgrees(r, s, key);
      }
    }
  }

  /** An append makes its transcript the newest of all, at the clock's time or one past the last. */
  lemma AppendIsNewest(r: TextRules, s: State, key: SessionKey, entries: seq<Entry>, now: int)
    requires Agrees(r, s) && entries != []
    ensures var t := AppendTo(r, s, key, entries, now);
      && key in t.items && t.items[key].mtimeMs == (if now > s.lastMtime then now else s.lastMtime + 1)
      && forall k :: k in t.items && k != key ==> t.items[k].mtimeMs < t.items[key].mtimeMs
  {
  }

  ghost predicate Apart(s: State) {
    forall k, l :: k in s.items && l in s.items && k != l ==> s.items[k].mtimeMs != s.items[l].mtimeMs
  }

  /** No two transcripts of a store ever have the same time, whatever the clock says. */
  lemma {:induction false} TimesApart(r: TextRules, ops: seq<Op>)
    ensures Apart(Run(r, EMPTY, ops))
  {
    if ops != [] {
      var s := Run(r, EMPTY, ops[..|ops| - 1]);
      TimesApart(r, ops[..|ops| - 1]);
      ReachableAgrees(r, ops[..|ops| - 1]);
      if ops[|ops| - 1].AppendOp? && ops[|ops| - 1].entries != [] {
        AppendIsNewest(r, s, ops[|ops| - 1].key, ops[|ops| - 1].entries, ops[|ops| - 1].now);
      }
    }
  }

  /** The project's main transcripts, each once, in any order. */
  ghost predicate IsListing(s: State, projectKey: string, out: seq<ListEntry>) {
    && (forall i, j :: 0 <= i < j < |out| ==> out[i].sessionID != out[j].sessionID)
    && (forall e :: e in out <==>
          var k := SessionKey(projectKey, e.sessionID, ""); k in s.items && s.items[k].mtimeMs == e.mtimeMs)
  }

  ghost predicate IsSummaryListing(s: State, projectKey: string, out: seq<SummaryEntry>) {
    && (forall i, j :: 0 <= i < j < |out| ==> out[i] != out[j])
    && (forall e :: e in out <==> exists id :: (projectKey, id) in s.summaries && s.summaries[(projectKey, id)] == e)
  }

  class MemorySessionStore {
    const rules: TextRules
    var items: map<SessionKey, Transcript>
    var summaries: map<(string, string), SummaryEntry>
    var lastMtime: int

    function View(): State
      reads this
    {
      State(items, summaries, lastMtime)
    }

    ghost predicate Valid()
      reads this
    {
      Agrees(rules, View())
    }

    constructor (r: TextRules)
      ensures Valid() && rules == r && View() == EMPTY
    {
      rules, items, summaries, lastMtime := r, map[], map[], 0;
    }

    /** `now` is the clock's reading. */
    method Append(key: SessionKey, entries: seq<Entry>, now: int)
      requires Valid()
      modifies this
      ensures Valid() && View() == AppendTo(rules, old(View()), key, entries, now)
    {
      AppendAgrees(rules, View(), key, entries, now);
      if |entries| == 0 {
        return;
      }
      var t := if key in items then items[key] else Transcript([], 0);
      t := Transcript(t.entries + entries, if now > lastMtime + 1 then now else lastMtime + 1);
      items := items[key := t];
      lastMtime := t.mtimeMs;
      if key.subpath == "" {
        var sk := (key.projectKey, key.sessionID);
        var prev := None;
        if sk in summaries {
          prev := Some(summaries[sk]);
        }
        var folded := FoldSessionSummary(rules, prev, key.sessionID, entries);
        folded := folded.(mtimeMs := t.mtimeMs);
        summaries := summaries[sk := folded];
      }
    }

    method Load(key: SessionKey) returns (entries: seq<Entry>)
      ensures entries == EntriesAt(View(), key)
    {
      if key !in items {
        return [];
      }
      entries := items[key].entries;
    }

    method Delete(key: SessionKey)
      requires Valid()
      modifies this
      ensures Valid() && View() == DeleteFrom(old(View()), key)
    {
      DeleteAgrees(rules, View(), key);
      if key.subpath != "" {
        items := items - {key};
        return;
      }
      summaries := summaries - {(key.projectKey, key.sessionID)};
      var keys := items.Keys;
      ghost var before := items;
      while keys != {}
        invariant keys <= before.Keys && items.Keys <= before.Keys && lastMtime == old(lastMtime)
        invariant summaries == old(summaries) - {(key.projectKey, key.sessionID)}
        invariant forall k :: k in before ==> (k in items <==> k in keys || !SameSession(k, key))
        invariant forall k :: k in items ==> items[k] == before[k]
        decreases keys
      {
        var k :| k in keys;
        keys := keys - {k};
        if SameSession(k, key) {
          items := items - {k};
        }
      }
      assert items == DeleteFrom(old(View()), key).items;
    }

    /** Map iteration picks the keys in any order. */
    method ListSessions(projectKey: string) returns (out: seq<ListEntry>)
      ensures IsListing(View(), projectKey, out)
    {
      out := [];
      var keys := items.Keys;
      while keys != {}
        invariant keys <= items.Keys
        invariant forall i, j :: 0 <= i < j < |out| ==> out[i].sessionID != out[j].sessionID
        invariant forall e :: e in out <==>
          var k := SessionKey(projectKey, e.sessionID, ""); k in items.Keys - keys && items[k].mtimeMs == e.mtimeMs
        decreases keys
      {
        var k :| k in keys;
        ghost var before := out;
        if k.projectKey == projectKey && k.subpath == "" {
          assert k == SessionKey(projectKey, k.sessionID, "");
          forall i | 0 <= i < |out| ensures out[i].sessionID != k.sessionID {
            assert out[i] in out;
          }
          out := out + [ListEntry(k.sessionID, items[k].mtimeMs)];
        }
        keys := keys - {k};
      }
    }

    method ListSessionSummaries(projectKey: string) returns (out: seq<SummaryEntry>)
      requires Valid()
      ensures IsSummaryListing(View(), projectKey, out)
    {
      out := [];
      var keys := summaries.Keys;
      while keys != {}
        invariant keys <= summaries.Keys
        invariant forall i, j :: 0 <= i < j < |out| ==> out[i] != out[j]
        invariant forall e :: e in out <==>
          exists id :: (projectKey, id) in summaries.Keys - keys && summaries[(projectKey, id)] == e
        decreases keys
      {
        var k :| k in keys;
        if k.0 == projectKey {
          assert k == (projectKey, k.1);
          OwnIDs(rules, View());
          forall i | 0 <= i < |out| ensures out[i] != summaries[k] {
            assert out[i] in out;
          }
          out := out + [summaries[k]];
        }
        keys := keys - {k};
      }
    }

    method ListSubkeys(key: SessionKey) returns (out: seq<string>)
      ensures forall i, j :: 0 <= i < j < |out| ==> Less(out[i], out[j])
      ensures forall sub :: sub in out <==> sub != "" && SessionKey(key.projectKey, key.sessionID, sub) in items
    {
      var found: seq<string> := [];
      var keys := items.Keys;
      while keys != {}
        invariant keys <= items.Keys
        invariant forall i, j :: 0 <= i < j < |found| ==> found[i] != found[j]
        invariant forall sub :: sub in found <==>
          sub != "" && SessionKey(key.projectKey, key.sessionID, sub) in items.Keys - keys
        decreases keys
      {
        var k :| k in keys;
        if SameSession(k, key) && k.subpath != "" {
          assert k == SessionKey(key.projectKey, key.sessionID, k.subpath);
          assert k.subpath !in found;
          found := found + [k.subpath];
        }
        keys := keys - {k};
      }
      out := SortStrings(found);
    }
  }

  lemma OwnIDs(r: TextRules, s: State)
    requires Agrees(r, s)
    ensures forall p, i :: (p, i) in s.summaries ==> s.summaries[(p, i)].sessionID == i
  {
    forall p, i | (p, i) in s.summaries ensures s.summaries[(p, i)].sessionID == i {
      assert Folded(r, s, SessionKey(p, i, ""));
    }
  }

  function ByName(s: string): Rank {
    Rank(0, s)
  }

  /** sort.Strings on distinct strings. */
  function SortStrings(s: seq<string>): (r: seq<string>)
    requires forall i, j :: 0 <= i < j < |s| ==> s[i] != s[j]
    ensures forall i, j :: 0 <= i < j < |r| ==> Less(r[i], r[j])
    ensures forall x :: x in r <==> x in s
  {
    SortRanks(s, ByName);
    var r := Sort(s, ByName);
    assert forall i, j :: 0 <= i < j < |r| ==> Above(ByName(r[i]), ByName(r[j]));
    r
  }
}
