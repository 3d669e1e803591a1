/** Listing a project's sessions from a store: domains/sessions/list_from_store.go. */
module Listing {
  import opened Json
  import opened Seqs
  import opened Order
  import opened Summary
  import opened SessionRow
  import opened MemoryStore

  /** What a store answers to an optional call: it may not support it, or may fail. */
  datatype Answer<+T> = Unsupported | Failed(err: string) | Got(rows: seq<T>)

  datatype LoadResult = LoadFailed | Loaded(entries: seq<Entry>)

  datatype ListResult = Listed(infos: seq<SessionInfo>) | ListError(err: string)

  datatype Slot = Slot(mtime: int, id: string, info: Option<SessionInfo>)

  function SlotRank(s: Slot): Rank {
    Rank(s.mtime, s.id)
  }

  function InfoRank(i: SessionInfo): Rank {
    Rank(i.lastModified, i.sessionID)
  }

  /** One session's row, folded from its stored entries. */
  function Derive(r: TextRules, load: string -> LoadResult, path: string, e: ListEntry): (d: Option<SessionInfo>)
    ensures d.Some? ==> InfoRank(d.value) == Rank(e.mtimeMs, e.sessionID)
  {
    match load(e.sessionID)
    case LoadFailed => Some(SessionInfo(e.sessionID, "", e.mtimeMs, "", "", "", "", "", 0))
    case Loaded(entries) =>
      if entries == [] then None
      else SummaryToSessionInfo(FoldSummary(r, None, e.sessionID, entries).(mtimeMs := e.mtimeMs), path)
  }

  function Known(listing: seq<ListEntry>): (m: map<string, int>)
    ensures forall id :: id in m <==> exists i :: 0 <= i < |listing| && listing[i].sessionID == id
  {
    if listing == [] then map[]
    else
      assert listing == listing[..|listing| - 1] + [listing[|listing| - 1]];
      Known(listing[..|listing| - 1])[listing[|listing| - 1].sessionID := listing[|listing| - 1].mtimeMs]
  }

  predicate IsFresh(canList: bool, known: map<string, int>, s: SummaryEntry) {
    canList ==> s.sessionID in known && s.mtimeMs >= known[s.sessionID]
  }

  function FreshIDs(canList: bool, known: map<string, int>, summaries: seq<SummaryEntry>): set<string> {
    set s | s in summaries && IsFresh(canList, known, s) :: s.sessionID
  }

  function SummarySlots(canList: bool, known: map<string, int>, path: string, summaries: seq<SummaryEntry>): seq<Slot> {
    if summaries == [] then []
    else
      var s := summaries[|summaries| - 1];
      SummarySlots(canList, known, path, summaries[..|summaries| - 1])
      + if IsFresh(canList, known, s) && SummaryToSessionInfo(s, path).Some?
        then [Slot(s.mtimeMs, s.sessionID, SummaryToSessionInfo(s, path))] else []
  }

  function GapSlots(current: set<string>, listing: seq<ListEntry>): seq<Slot> {
    if listing == [] then []
    else
      var e := listing[|listing| - 1];
      GapSlots(current, listing[..|listing| - 1])
        + if e.sessionID !in current then [Slot(e.mtimeMs, e.sessionID, None)] else []
  }

  function Slots(canList: bool, path: string, summaries: seq<SummaryEntry>, listing: seq<ListEntry>): seq<Slot> {
    var known := Known(listing);
    SummarySlots(canList, known, path, summaries) + GapSlots(FreshIDs(canList, known, summaries), listing)
  }

  /** A slot's row: the summary's, or the one Load gives. */
  function Fill(r: TextRules, load: string -> LoadResult, path: string, s: Slot): Option<SessionInfo> {
    if s.info.Some? then s.info else Derive(r, load, path, ListEntry(s.id, s.mtime))
  }

  function Fills(r: TextRules, load: string -> LoadResult, path: string, slots: seq<Slot>)
    : (f: seq<Option<SessionInfo>>)
    ensures |f| == |slots| && forall i :: 0 <= i < |slots| ==> f[i] == Fill(r, load, path, slots[i])
  {
    seq(|slots|, i requires 0 <= i < |slots| => Fill(r, load, path, slots[i]))
  }

  function Somes<T>(s: seq<Option<T>>): seq<T> {
    if s == [] then [] else Somes(s[..|s| - 1]) + if s[|s| - 1].Some? then [s[|s| - 1].value] else []
  }

  /** The summary-based listing: one page of slots, the missing ones filled by Load. */
  function FastRows(r: TextRules, canList: bool, summaries: seq<SummaryEntry>, listing: seq<ListEntry>,
                    load: string -> LoadResult, path: string, limit: int, offset: int): seq<SessionInfo> {
    Somes(Fills(r, load, path, Page(Sort(Slots(canList, path, summaries, listing), SlotRank), limit, offset)))
  }

  function DerivedRows(r: TextRules, load: string -> LoadResult, path: string,
                       listing: seq<ListEntry>): seq<SessionInfo>
  {
    if listing == [] then []
    else
      DerivedRows(r, load, path, listing[..|listing| - 1])
      + match Derive(r, load, path, listing[|listing| - 1]) case None => [] case Some(i) => [i]
  }

  /** The listing that loads every session. */
  function SlowRows(r: TextRules, listing: seq<ListEntry>, load: string -> LoadResult, path: string, limit: int,
                    offset: int): seq<SessionInfo>
  {
    Page(Sort(DerivedRows(r, load, path, listing), InfoRank), limit, offset)
  }

  ghost predicate DistinctIDs(listing: seq<ListEntry>) {
    forall i, j :: 0 <= i < j < |listing| ==> listing[i].sessionID != listing[j].sessionID
  }

  lemma {:induction false} DerivedAre(r: TextRules, load: string -> LoadResult, path: string, listing: seq<ListEntry>)
    ensures forall x :: x in DerivedRows(r, load, path, listing) <==>
      exists e :: e in listing && Derive(r, load, path, e) == Some(x)
  {
    if listing != [] {
      var front, last := listing[..|listing| - 1], listing[|listing| - 1];
      DerivedAre(r, load, path, front);
      assert listing == front + [last];
      forall x | x in DerivedRows(r, load, path, listing)
        ensures exists e :: e in listing && Derive(r, load, path, e) == Some(x)
      {
        if Derive(r, load, path, last) != Some(x) {
          assert x in DerivedRows(r, load, path, front);
        }
      }
    }
  }

  lemma {:induction false} DerivedDistinct(r: TextRules, load: string -> LoadResult, path: string,
                                           listing: seq<ListEntry>)
    requires DistinctIDs(listing)
    ensures Distinct(DerivedRows(r, load, path, listing), InfoRank)
  {
    if listing != [] {
      var front, last := listing[..|listing| - 1], listing[|listing| - 1];
      DerivedDistinct(r, load, path, front);
      DerivedAre(r, load, path, front);
      var rows := DerivedRows(r, load, path, front);
      forall i | 0 <= i < |rows| ensures rows[i].sessionID != last.sessionID {
        assert rows[i] in rows;
        var e :| e in front && Derive(r, load, path, e) == Some(rows[i]);
      }
    }
  }

  function Members<T>(s: seq<T>): set<T> {
    set x | x in s
  }

  /** The rows hold, for each id, what some entry listed under it derives, if one derives anything. An id listed
      twice leaves open which. */
  ghost predicate IsFilled(r: TextRules, load: string -> LoadResult, path: string, es: set<ListEntry>,
                           filled: map<string, SessionInfo>)
  {
    && (forall id :: id in filled ==>
         exists e :: e in es && e.sessionID == id && Derive(r, load, path, e) == Some(filled[id]))
    && (forall e :: e in es && Derive(r, load, path, e).Some? ==> e.sessionID in filled)
  }

  /** Each Load runs on its own goroutine; the rows arrive in any order. */
  method DeriveViaLoad(r: TextRules, load: string -> LoadResult, path: string, listing: seq<ListEntry>)
    returns (out: map<string, SessionInfo>)
    ensures IsFilled(r, load, path, Members(listing), out)
  {
    out := map[];
    var running := Members(listing);
    while running != {}
      invariant forall e :: e in running ==> e in listing
      invariant forall id :: id in out ==>
        exists e :: e in listing && e.sessionID == id && Derive(r, load, path, e) == Some(out[id])
      invariant forall e :: e in listing && e !in running && Derive(r, load, path, e).Some? ==> e.sessionID in out
      decreases running
    {
      var e :| e in running;
      running := running - {e};
      var info := Derive(r, load, path, e);
      if info.Some? {
        out := out[e.sessionID := info.value];
      }
    }
  }

  /** The listing, whatever the store answers. `filled` is the rows loaded: of the gaps of the page by summaries,
      of every entry listed without. */
  ghost predicate Answers(r: TextRules, summaries: Answer<SummaryEntry>, listing: Answer<ListEntry>,
                          load: string -> LoadResult, path: string,
                          limit: int, offset: int, filled: map<string, SessionInfo>, out: ListResult) {
    if summaries.Failed? then out == ListError(summaries.err)
    else if listing.Failed? then out == ListError(listing.err)
    else if summaries.Got? then
      var page := Page(Sort(Slots(listing.Got?, path, summaries.rows, Rows(listing)), SlotRank), limit, offset);
      IsFilled(r, load, path, Gaps(page), filled) && out == Listed(Somes(FillsFrom(page, filled)))
    else if listing.Got? then
      IsFilled(r, load, path, Members(listing.rows), filled)
      && exists infos :: AreValues(filled, infos) && out == Listed(Page(Sort(infos, InfoRank), limit, offset))
    else out.ListError?
  }

  function Rows<T>(a: Answer<T>): seq<T> {
    if a.Got? then a.rows else []
  }

  ghost predicate AreValues(filled: map<string, SessionInfo>, infos: seq<SessionInfo>) {
    Distinct(infos, InfoRank) && forall x :: x in infos <==> x.sessionID in filled && filled[x.sessionID] == x
  }

  method ListSessionsFromStore(r: TextRules, summaries: Answer<SummaryEntry>, listing: Answer<ListEntry>,
                               load: string -> LoadResult, path: string, limit: int, offset: int)
    returns (out: ListResult, ghost filled: map<string, SessionInfo>)
    ensures Answers(r, summaries, listing, load, path, limit, offset, filled, out)
    ensures listing.Got? && DistinctIDs(listing.rows) && summaries.Got? ==>
      out == Listed(FastRows(r, true, summaries.rows, listing.rows, load, path, limit, offset))
    ensures listing.Got? && DistinctIDs(listing.rows) && summaries.Unsupported? ==>
      out == Listed(SlowRows(r, listing.rows, load, path, limit, offset))
    ensures listing.Unsupported? && summaries.Got? ==>
      out == Listed(FastRows(r, false, summaries.rows, [], load, path, limit, offset))
  {
    filled := map[];
    if summaries.Failed? {
      out := ListError(summaries.err);
    } else if listing.Failed? {
      out := ListError(listing.err);
    } else if summaries.Got? {
      out, filled := ListBySummaries(r, listing.Got?, summaries.rows, Rows(listing), load, path, limit, offset);
    } else if listing.Got? {
      out, filled := ListByLoad(r, listing.rows, load, path, limit, offset);
    } else {
      out := ListError("sessions: store implements neither SessionSummaryLister nor SessionLister");
    }
  }

  method ListBySummaries(r: TextRules, canList: bool, summaries: seq<SummaryEntry>, listing: seq<ListEntry>,
                         load: string -> LoadResult, path: string, limit: int, offset: int)
    returns (out: ListResult, ghost filled: map<string, SessionInfo>)
    ensures var page := Page(Sort(Slots(canList, path, summaries, listing), SlotRank), limit, offset);
      IsFilled(r, load, path, Gaps(page), filled) && out == Listed(Somes(FillsFrom(page, filled)))
    ensures DistinctIDs(listing) ==> out == Listed(FastRows(r, canList, summaries, listing, load, path, limit, offset))
  {
    var slots := CollectSlots(canList, path, summaries, listing);
    var sorted := Sort(slots, SlotRank);
    var page := Page(sorted, limit, offset);
    var infos;
    infos, filled := FillPage(r, load, path, page);
    out := Listed(infos);
    if DistinctIDs(listing) {
      OneGapEach(canList, path, summaries, listing);
      InMultiset(sorted, slots);
      PageWithin(sorted, limit, offset);
    }
  }

  method ListByLoad(r: TextRules, listing: seq<ListEntry>, load: string -> LoadResult, path: string, limit: int,
                    offset: int)
    returns (out: ListResult, ghost filled: map<string, SessionInfo>)
    ensures IsFilled(r, load, path, Members(listing), filled)
    ensures exists infos :: AreValues(filled, infos) && out == Listed(Page(Sort(infos, InfoRank), limit, offset))
    ensures DistinctIDs(listing) ==> out == Listed(SlowRows(r, listing, load, path, limit, offset))
  {
    var loaded := DeriveViaLoad(r, load, path, listing);
    filled := loaded;
    var infos := Values(loaded);
    out := Listed(Page(Sort(infos, InfoRank), limit, offset));
    if DistinctIDs(listing) {
      SlowOrder(r, load, path, listing, filled, infos);
    }
  }

  method CollectSlots(canList: bool, path: string, summaries: seq<SummaryEntry>, listing: seq<ListEntry>)
    returns (slots: seq<Slot>)
    ensures slots == Slots(canList, path, summaries, listing)
  {
    var known: map<string, int> := map[];
    for i := 0 to |listing|
      invariant known == Known(listing[..i])
    {
      assert listing[..i + 1][..i] == listing[..i];
      known := known[listing[i].sessionID := listing[i].mtimeMs];
    }
    assert listing[..|listing|] == listing;
    var current;
    slots, current := SlotsFromSummaries(canList, known, path, summaries);
    ghost var fromSummaries := slots;
    for i := 0 to |listing|
      invariant slots == fromSummaries + GapSlots(current, listing[..i])
    {
      assert listing[..i + 1][..i] == listing[..i];
      if listing[i].sessionID !in current {
        slots := slots + [Slot(listing[i].mtimeMs, listing[i].sessionID, None)];
      }
    }
  }

  method SlotsFromSummaries(canList: bool, known: map<string, int>, path: string, summaries: seq<SummaryEntry>)
    returns (slots: seq<Slot>, current: set<string>)
    ensures slots == SummarySlots(canList, known, path, summaries)
    ensures current == FreshIDs(canList, known, summaries)
  {
    slots, current := [], {};
    for i := 0 to |summaries|
      invariant current == FreshIDs(canList, known, summaries[..i])
      invariant slots == SummarySlots(canList, known, path, summaries[..i])
    {
      var s := summaries[i];
      assert summaries[..i + 1][..i] == summaries[..i];
      FreshStep(canList, known, summaries, i);
      if canList {
        if s.sessionID !in known || s.mtimeMs < known[s.sessionID] {
          continue;
        }
      }
      current := current + {s.sessionID};
      var info := SummaryToSessionInfo(s, path);
      if info.Some? {
        slots := slots + [Slot(s.mtimeMs, s.sessionID, info)];
      }
    }
    assert summaries[..|summaries|] == summaries;
  }

  lemma FreshStep(canList: bool, known: map<string, int>, summaries: seq<SummaryEntry>, i: nat)
    requires i < |summaries|
    ensures FreshIDs(canList, known, summaries[..i + 1])
         == FreshIDs(canList, known, summaries[..i])
           + if IsFresh(canList, known, summaries[i]) then {summaries[i].sessionID} else {}
  {
    assert summaries[..i + 1] == summaries[..i] + [summaries[i]];
  }

  ghost predicate OneGap(slots: seq<Slot>) {
    forall x, y :: x in slots && y in slots && x.info.None? && y.info.None? && x.id == y.id ==> x == y
  }

  lemma {:induction false} GapsAre(current: set<string>, listing: seq<ListEntry>)
    ensures forall x :: x in GapSlots(current, listing) <==>
      x.info.None? && x.id !in current && ListEntry(x.id, x.mtime) in listing
  {
    if listing != [] {
      GapsAre(current, listing[..|listing| - 1]);
      assert listing == listing[..|listing| - 1] + [listing[|listing| - 1]];
    }
  }

  lemma {:induction false} SummarySlotsAre(canList: bool, known: map<string, int>, path: string,
                                           summaries: seq<SummaryEntry>)
    ensures forall x :: x in SummarySlots(canList, known, path, summaries) <==>
      exists s ::
        s in summaries && IsFresh(canList, known, s) && x.info.Some?
          && x == Slot(s.mtimeMs, s.sessionID, SummaryToSessionInfo(s, path))
  {
    if summaries != [] {
      var front, last := summaries[..|summaries| - 1], summaries[|summaries| - 1];
      SummarySlotsAre(canList, known, path, front);
      assert summaries == front + [last];
      forall x | x in SummarySlots(canList, known, path, summaries)
        ensures exists s ::
          s in summaries && IsFresh(canList, known, s) && x.info.Some?
            && x == Slot(s.mtimeMs, s.sessionID, SummaryToSessionInfo(s, path))
      {
        if x !in SummarySlots(canList, known, path, front) {
          assert x == Slot(last.mtimeMs, last.sessionID, SummaryToSessionInfo(last, path));
        }
      }
    }
  }

  lemma OneGapEach(canList: bool, path: string, summaries: seq<SummaryEntry>, listing: seq<ListEntry>)
    requires DistinctIDs(listing)
    ensures OneGap(Slots(canList, path, summaries, listing))
  {
    var known := Known(listing);
    GapsAre(FreshIDs(canList, known, summaries), listing);
    SummarySlotsAre(canList, known, path, summaries);
    forall x, y | x in Slots(canList, path, summaries, listing) && y in Slots(canList, path, summaries, listing)
                  && x.info.None? && y.info.None? && x.id == y.id
      ensures x == y
    {
      var i :| 0 <= i < |listing| && listing[i] == ListEntry(x.id, x.mtime);
      var j :| 0 <= j < |listing| && listing[j] == ListEntry(y.id, y.mtime);
      assert i == j;
    }
  }

  lemma PageWithin<T(!new)>(s: seq<T>, limit: int, offset: int)
    ensures forall x :: x in Page(s, limit, offset) ==> x in s
  {
  }

  /** The slots a page leaves to be loaded. */
  function Gaps(page: seq<Slot>): set<ListEntry> {
    set s | s in page && s.info.None? :: ListEntry(s.id, s.mtime)
  }

  /** A page's rows: the summaries', and the loaded ones where there are none. */
  function FillsFrom(slots: seq<Slot>, filled: map<string, SessionInfo>): (f: seq<Option<SessionInfo>>)
    ensures |f| == |slots| && forall i :: 0 <= i < |slots| ==> f[i] == FillFrom(slots[i], filled)
  {
    seq(|slots|, i requires 0 <= i < |slots| => FillFrom(slots[i], filled))
  }

  function FillFrom(s: Slot, filled: map<string, SessionInfo>): Option<SessionInfo> {
    if s.info.Some? then s.info else if s.id in filled then Some(filled[s.id]) else None
  }

  lemma GapsStep(page: seq<Slot>, i: nat)
    requires i < |page|
    ensures Gaps(page[..i + 1])
      == Gaps(page[..i]) + if page[i].info.None? then {ListEntry(page[i].id, page[i].mtime)} else {}
  {
    assert page[..i + 1] == page[..i] + [page[i]];
  }

  lemma MembersEnd<T>(s: seq<T>, x: T)
    ensures Members(s + [x]) == Members(s) + {x}
  {
  }

  method ToFill(page: seq<Slot>) returns (fill: seq<ListEntry>)
    ensures Members(fill) == Gaps(page)
  {
    fill := [];
    for i := 0 to |page|
      invariant Members(fill) == Gaps(page[..i])
    {
      GapsStep(page, i);
      if page[i].info.None? {
        MembersEnd(fill, ListEntry(page[i].id, page[i].mtime));
        fill := fill + [ListEntry(page[i].id, page[i].mtime)];
      }
    }
    assert page[..|page|] == page;
  }

  method FillPage(r: TextRules, load: string -> LoadResult, path: string, page: seq<Slot>)
    returns (out: seq<SessionInfo>, ghost filled: map<string, SessionInfo>)
    ensures IsFilled(r, load, path, Gaps(page), filled) && out == Somes(FillsFrom(page, filled))
    ensures OneGap(page) ==> out == Somes(Fills(r, load, path, page))
  {
    var fill := ToFill(page);
    var loaded := DeriveViaLoad(r, load, path, fill);
    filled := loaded;
    out := [];
    ghost var fills := FillsFrom(page, loaded);
    for i := 0 to |page|
      invariant out == Somes(fills[..i])
    {
      var s := page[i];
      assert fills[..i + 1][..i] == fills[..i];
      if s.info.Some? {
        out := out + [s.info.value];
      } else if s.id in loaded {
        out := out + [loaded[s.id]];
      }
    }
    assert fills[..|page|] == fills;
    if OneGap(page) {
      FilledPage(r, load, path, page, filled);
    }
  }

  /** With one gap an id, the rows of a page are what its slots' own entries derive. */
  lemma FilledPage(r: TextRules, load: string -> LoadResult, path: string, page: seq<Slot>,
                   filled: map<string, SessionInfo>)
    requires OneGap(page) && IsFilled(r, load, path, Gaps(page), filled)
    ensures FillsFrom(page, filled) == Fills(r, load, path, page)
  {
    forall i | 0 <= i < |page| ensures FillFrom(page[i], filled) == Fill(r, load, path, page[i]) {
      FilledSlot(r, load, path, page, filled, page[i]);
    }
  }

  lemma FilledSlot(r: TextRules, load: string -> LoadResult, path: string, page: seq<Slot>,
                   filled: map<string, SessionInfo>, s: Slot)
    requires OneGap(page) && s in page && IsFilled(r, load, path, Gaps(page), filled)
    ensures FillFrom(s, filled) == Fill(r, load, path, s)
  {
    if s.info.None? {
      assert ListEntry(s.id, s.mtime) in Gaps(page);
      if s.id in filled {
        var e :| e in Gaps(page) && e.sessionID == s.id && Derive(r, load, path, e) == Some(filled[s.id]);
        assert Slot(e.mtimeMs, e.sessionID, None) == s;
      }
    }
  }

  method Values(filled: map<string, SessionInfo>) returns (infos: seq<SessionInfo>)
    requires forall id :: id in filled ==> filled[id].sessionID == id
    ensures AreValues(filled, infos)
  {
    infos := [];
    var ids := filled.Keys;
    while ids != {}
      invariant ids <= filled.Keys && Distinct(infos, InfoRank)
      invariant forall x :: x in infos <==> x.sessionID in filled.Keys - ids && filled[x.sessionID] == x
      decreases ids
    {
      var id :| id in ids;
      forall i | 0 <= i < |infos| ensures InfoRank(infos[i]) != InfoRank(filled[id]) {
        assert infos[i] in infos;
      }
      infos := infos + [filled[id]];
      ids := ids - {id};
    }
  }

  lemma {:induction false} SlowOrder(r: TextRules, load: string -> LoadResult, path: string, listing: seq<ListEntry>,
                                     filled: map<string, SessionInfo>, infos: seq<SessionInfo>)
    requires DistinctIDs(listing) && IsFilled(r, load, path, Members(listing), filled) && AreValues(filled, infos)
    ensures Sort(infos, InfoRank) == Sort(DerivedRows(r, load, path, listing), InfoRank)
  {
    var rows := DerivedRows(r, load, path, listing);
    DerivedAre(r, load, path, listing);
    DerivedDistinct(r, load, path, listing);
    forall x ensures x in infos <==> x in rows {
      if x in rows {
        var e :| e in listing && Derive(r, load, path, e) == Some(x);
        var e' :| e' in listing && e'.sessionID == x.sessionID
          && Derive(r, load, path, e') == Some(filled[x.sessionID]);
        var i :| 0 <= i < |listing| && listing[i] == e;
        var j :| 0 <= j < |listing| && listing[j] == e';
        assert i == j;
      }
    }
    SortRanks(infos, InfoRank);
    SortRanks(rows, InfoRank);
    RankedUnique(Sort(infos, InfoRank), Sort(rows, InfoRank), InfoRank);
  }

  // When the fast listing is the slow one.

  /** No row is lost after a row that is kept. */
  ghost predicate LostLast<T>(s: seq<Option<T>>) {
    forall i, j :: 0 <= i < j < |s| && s[j].Some? ==> s[i].Some?
  }

  function Unwrap<T>(s: seq<Option<T>>): (r: seq<T>)
    requires forall i :: 0 <= i < |s| ==> s[i].Some?
    ensures |r| == |s| && forall i :: 0 <= i < |s| ==> r[i] == s[i].value
  {
    seq(|s|, i requires 0 <= i < |s| => s[i].value)
  }

  lemma {:induction false} SomesAll<T>(s: seq<Option<T>>)
    requires forall i :: 0 <= i < |s| ==> s[i].Some?
    ensures Somes(s) == Unwrap(s)
  {
    if s != [] {
      SomesAll(s[..|s| - 1]);
    }
  }

  lemma {:induction false} SomesConcat<T>(a: seq<Option<T>>, b: seq<Option<T>>)
    ensures Somes(a + b) == Somes(a) + Somes(b)
  {
    if b == [] {
      assert a + b == a;
    } else {
      SomesConcat(a, b[..|b| - 1]);
      assert (a + b)[..|a + b| - 1] == a + b[..|b| - 1];
    }
  }

  lemma {:induction false} SomesNone<T>(s: seq<Option<T>>)
    requires forall i :: 0 <= i < |s| ==> s[i].None?
    ensures Somes(s) == []
  {
    if s != [] {
      SomesNone(s[..|s| - 1]);
    }
  }

  lemma {:induction false} SplitLost<T>(s: seq<Option<T>>) returns (n: nat)
    requires LostLast(s)
    ensures n <= |s| && (forall i :: 0 <= i < n ==> s[i].Some?) && (forall i :: n <= i < |s| ==> s[i].None?)
  {
    n := 0;
    while n < |s| && s[n].Some?
      invariant n <= |s| && forall i :: 0 <= i < n ==> s[i].Some?
    {
      n := n + 1;
    }
  }

  function Start(len: nat, offset: int): nat {
    if offset <= 0 then 0 else if offset >= len then len else offset
  }

  function End(len: nat, limit: int, offset: int): nat {
    if 0 < limit < len - Start(len, offset) then Start(len, offset) + limit else len
  }

  lemma PageIsSlice<T>(s: seq<T>, limit: int, offset: int)
    ensures Start(|s|, offset) <= End(|s|, limit, offset) <= |s|
    ensures Page(s, limit, offset) == s[Start(|s|, offset)..End(|s|, limit, offset)]
  {
  }

  lemma {:induction false} SomesSplit<T>(s: seq<Option<T>>, n: nat)
    requires n <= |s| && (forall i :: 0 <= i < n ==> s[i].Some?) && (forall i :: n <= i < |s| ==> s[i].None?)
    ensures Somes(s) == Unwrap(s[..n])
  {
    assert s == s[..n] + s[n..];
    SomesConcat(s[..n], s[n..]);
    SomesAll(s[..n]);
    SomesNone(s[n..]);
  }

  lemma TakeSlice<T>(s: seq<T>, n: nat, lo: nat, hi: nat)
    requires lo <= hi <= |s| && n <= |s|
    ensures var a, b := if lo < n then lo else n, if hi < n then hi else n; s[lo..hi][..b - a] == s[..n][a..b]
  {
    var a, b := if lo < n then lo else n, if hi < n then hi else n;
    if lo < n {
      assert s[lo..hi][..b - a] == s[lo..b] == s[..n][lo..b];
    }
  }

  lemma UnwrapSlice<T>(s: seq<Option<T>>, a: nat, b: nat)
    requires (forall i :: 0 <= i < |s| ==> s[i].Some?) && a <= b <= |s|
    ensures Unwrap(s[a..b]) == Unwrap(s)[a..b]
  {
  }

  lemma SomesSlice<T>(s: seq<Option<T>>, n: nat, lo: nat, hi: nat)
    requires n <= |s| && (forall i :: 0 <= i < n ==> s[i].Some?) && (forall i :: n <= i < |s| ==> s[i].None?)
      && lo <= hi <= |s|
    ensures |Somes(s)| == n
    ensures Somes(s[lo..hi]) == Somes(s)[if lo < n then lo else n..if hi < n then hi else n]
  {
    SomesSplit(s, n);
    var a, b := if lo < n then lo else n, if hi < n then hi else n;
    SomesSplit(s[lo..hi], b - a);
    TakeSlice(s, n, lo, hi);
    UnwrapSlice(s[..n], a, b);
  }

  lemma LostLastPages<T>(s: seq<Option<T>>, limit: int, offset: int)
    requires LostLast(s)
    ensures Somes(Page(s, limit, offset)) == Page(Somes(s), limit, offset)
  {
    var n := SplitLost(s);
    PageIsSlice(s, limit, offset);
    SomesSlice(s, n, Start(|s|, offset), End(|s|, limit, offset));
    PageIsSlice(Somes(s), limit, offset);
  }

  /** Dropping lost rows after cutting the page gives the same pages as dropping them before exactly
      when no kept row follows a lost one. */
  lemma PagesAgreeIff<T>(s: seq<Option<T>>)
    ensures LostLast(s) <==> forall limit, offset :: Somes(Page(s, limit, offset)) == Page(Somes(s), limit, offset)
  {
    if LostLast(s) {
      forall limit, offset ensures Somes(Page(s, limit, offset)) == Page(Somes(s), limit, offset) {
        LostLastPages(s, limit, offset);
      }
    } else {
      var i, j :| 0 <= i < j < |s| && s[j].Some? && s[i].None?;
      var n := FirstLost(s, i);
      LostPage(s, n, j);
    }
  }

  lemma FirstLost<T>(s: seq<Option<T>>, i: nat) returns (n: nat)
    requires i < |s| && s[i].None?
    ensures n <= i && s[n].None? && forall k :: 0 <= k < n ==> s[k].Some?
  {
    n := 0;
    while s[n].Some?
      invariant n <= i && forall k :: 0 <= k < n ==> s[k].Some?
      decreases i - n
    {
      n := n + 1;
    }
  }

  /** The one-row page at the first lost row: empty on one side, the next kept row on the other. */
  lemma LostPage<T>(s: seq<Option<T>>, n: nat, j: nat)
    requires n < j < |s| && s[n].None? && s[j].Some? && forall k :: 0 <= k < n ==> s[k].Some?
    ensures Somes(Page(s, 1, n)) != Page(Somes(s), 1, n)
  {
    assert Page(s, 1, n) == [s[n]];
    assert Somes([s[n]]) == [];
    MoreKept(s, n, j);
    assert |Page(Somes(s), 1, n)| == 1;
  }

  lemma MoreKept<T>(s: seq<Option<T>>, n: nat, j: nat)
    requires n < j < |s| && s[j].Some? && forall k :: 0 <= k < n ==> s[k].Some?
    ensures |Somes(s)| > n
  {
    assert s == s[..n] + s[n..];
    SomesConcat(s[..n], s[n..]);
    SomesAll(s[..n]);
    assert s[n..][j - n] == s[j];
    SomeKept(s[n..], j - n);
  }

  lemma {:induction false} SomeKept<T>(s: seq<Option<T>>, j: nat)
    requires j < |s| && s[j].Some?
    ensures |Somes(s)| > 0
  {
    if j < |s| - 1 {
      SomeKept(s[..|s| - 1], j);
    }
  }

  /** A current summary says what the stored entries say. */
  ghost predicate Coherent(r: TextRules, summaries: seq<SummaryEntry>, listing: seq<ListEntry>,
                           load: string -> LoadResult, path: string)
  {
    && (forall i, j :: 0 <= i < j < |summaries| ==> summaries[i].sessionID != summaries[j].sessionID)
    && DistinctIDs(listing)
    && forall s, e :: s in summaries && e in listing && s.sessionID == e.sessionID && s.mtimeMs >= e.mtimeMs ==>
         SummaryToSessionInfo(s, path) == Derive(r, load, path, e)
  }

  lemma {:induction false} KnownAt(listing: seq<ListEntry>)
    requires DistinctIDs(listing)
    ensures forall e :: e in listing ==> e.sessionID in Known(listing) && Known(listing)[e.sessionID] == e.mtimeMs
    ensures forall id :: id in Known(listing) ==> ListEntry(id, Known(listing)[id]) in listing
  {
    if listing != [] {
      var front, last := listing[..|listing| - 1], listing[|listing| - 1];
      KnownAt(front);
      assert listing == front + [last];
    }
  }

  ghost function Sorted(canList: bool, path: string, summaries: seq<SummaryEntry>, listing: seq<ListEntry>): seq<Slot> {
    Sort(Slots(canList, path, summaries, listing), SlotRank)
  }

  lemma {:induction false} SomesIn<T(!new)>(s: seq<Option<T>>)
    ensures forall x :: x in Somes(s) <==> Some(x) in s
  {
    if s != [] {
      SomesIn(s[..|s| - 1]);
      assert s == s[..|s| - 1] + [s[|s| - 1]];
    }
  }

  lemma {:induction false} SummarySlotsDistinct(known: map<string, int>, path: string, summaries: seq<SummaryEntry>)
    requires forall i, j :: 0 <= i < j < |summaries| ==> summaries[i].sessionID != summaries[j].sessionID
    ensures Distinct(SummarySlots(true, known, path, summaries), SlotRank)
  {
    if summaries != [] {
      var front, last := summaries[..|summaries| - 1], summaries[|summaries| - 1];
      SummarySlotsDistinct(known, path, front);
      SummarySlotsAre(true, known, path, front);
      var slots := SummarySlots(true, known, path, front);
      forall i | 0 <= i < |slots| ensures slots[i].id != last.sessionID {
        assert slots[i] in slots;
      }
    }
  }

  lemma {:induction false} GapSlotsDistinct(current: set<string>, listing: seq<ListEntry>)
    requires DistinctIDs(listing)
    ensures Distinct(GapSlots(current, listing), SlotRank)
  {
    if listing != [] {
      var front, last := listing[..|listing| - 1], listing[|listing| - 1];
      GapSlotsDistinct(current, front);
      GapsAre(current, front);
      var slots := GapSlots(current, front);
      forall i | 0 <= i < |slots| ensures slots[i].id != last.sessionID {
        assert slots[i] in slots;
        var k :| 0 <= k < |front| && front[k] == ListEntry(slots[i].id, slots[i].mtime);
      }
    }
  }

  lemma SlotsDistinct(path: string, summaries: seq<SummaryEntry>, listing: seq<ListEntry>)
    requires forall i, j :: 0 <= i < j < |summaries| ==> summaries[i].sessionID != summaries[j].sessionID
    requires DistinctIDs(listing)
    ensures Distinct(Slots(true, path, summaries, listing), SlotRank)
  {
    var known := Known(listing);
    var current := FreshIDs(true, known, summaries);
    var a, b := SummarySlots(true, known, path, summaries), GapSlots(current, listing);
    SummarySlotsDistinct(known, path, summaries);
    GapSlotsDistinct(current, listing);
    SummarySlotsAre(true, known, path, summaries);
    GapsAre(current, listing);
    forall i, j | 0 <= i < |a| && 0 <= j < |b| ensures a[i].id != b[j].id {
      assert a[i] in a && b[j] in b;
    }
  }

  ghost predicate RankKept(slots: seq<Slot>) {
    forall x :: x in slots && x.info.Some? ==> InfoRank(x.info.value) == SlotRank(x)
  }

  lemma {:induction false} FilledIn(r: TextRules, load: string -> LoadResult, path: string, slots: seq<Slot>)
    ensures forall x :: x in Somes(Fills(r, load, path, slots)) <==>
      exists s :: s in slots && Fill(r, load, path, s) == Some(x)
  {
    var fills := Fills(r, load, path, slots);
    SomesIn(fills);
    forall x | exists s :: s in slots && Fill(r, load, path, s) == Some(x) ensures Some(x) in fills {
      var i :| 0 <= i < |slots| && Fill(r, load, path, slots[i]) == Some(x);
      assert fills[i] == Some(x);
    }
  }

  lemma {:induction false} FilledRanked(r: TextRules, load: string -> LoadResult, path: string, slots: seq<Slot>)
    requires Ranked(slots, SlotRank) && RankKept(slots)
    ensures Ranked(Somes(Fills(r, load, path, slots)), InfoRank)
  {
    if slots != [] {
      var front, last := slots[..|slots| - 1], slots[|slots| - 1];
      var fills := Fills(r, load, path, slots);
      FilledRanked(r, load, path, front);
      FilledIn(r, load, path, front);
      assert fills[..|fills| - 1] == Fills(r, load, path, front);
      var rows := Somes(Fills(r, load, path, front));
      forall x | x in rows ensures Above(InfoRank(x), SlotRank(last)) {
        RowAbove(r, load, path, slots, x);
      }
      assert last in slots;
      RankedEnd(rows, fills[|fills| - 1], last);
    }
  }

  lemma RowAbove(r: TextRules, load: string -> LoadResult, path: string, slots: seq<Slot>, x: SessionInfo)
    requires slots != [] && Ranked(slots, SlotRank) && RankKept(slots)
    requires exists s :: s in slots[..|slots| - 1] && Fill(r, load, path, s) == Some(x)
    ensures Above(InfoRank(x), SlotRank(slots[|slots| - 1]))
  {
    var s :| s in slots[..|slots| - 1] && Fill(r, load, path, s) == Some(x);
    var k :| 0 <= k < |slots| - 1 && slots[k] == s;
    assert Above(SlotRank(slots[k]), SlotRank(slots[|slots| - 1]));
    FillRank(r, load, path, slots, s);
  }

  lemma FillRank(r: TextRules, load: string -> LoadResult, path: string, slots: seq<Slot>, s: Slot)
    requires RankKept(slots) && s in slots
    ensures Fill(r, load, path, s).Some? ==> InfoRank(Fill(r, load, path, s).value) == SlotRank(s)
  {
  }

  lemma RankedEnd(rows: seq<SessionInfo>, x: Option<SessionInfo>, last: Slot)
    requires Ranked(rows, InfoRank) && (x.Some? ==> InfoRank(x.value) == SlotRank(last))
    requires forall y :: y in rows ==> Above(InfoRank(y), SlotRank(last))
    ensures Ranked(rows + (if x.Some? then [x.value] else []), InfoRank)
  {
    forall i | 0 <= i < |rows| ensures Above(InfoRank(rows[i]), SlotRank(last)) {
      assert rows[i] in rows;
    }
  }

  /** Summary slots and gap slots together give each session the row its entries give. */
  lemma SlotsCover(r: TextRules, summaries: seq<SummaryEntry>, listing: seq<ListEntry>, load: string -> LoadResult,
                   path: string)
    requires Coherent(r, summaries, listing, load, path)
    ensures RankKept(Slots(true, path, summaries, listing))
    ensures forall x :: (exists s :: s in Slots(true, path, summaries, listing) && Fill(r, load, path, s) == Some(x))
                   <==> exists e :: e in listing && Derive(r, load, path, e) == Some(x)
  {
    var known := Known(listing);
    var current := FreshIDs(true, known, summaries);
    KnownAt(listing);
    SummarySlotsAre(true, known, path, summaries);
    GapsAre(current, listing);
    var slots := Slots(true, path, summaries, listing);
    forall t | t in slots
      ensures exists e :: e in listing && Derive(r, load, path, e) == Fill(r, load, path, t)
    {
      if t.info.Some? {
        var s :| s in summaries && IsFresh(true, known, s)
          && t == Slot(s.mtimeMs, s.sessionID, SummaryToSessionInfo(s, path));
        assert Derive(r, load, path, ListEntry(s.sessionID, known[s.sessionID])) == t.info;
      } else {
        assert ListEntry(t.id, t.mtime) in listing;
      }
    }
    forall e | e in listing && Derive(r, load, path, e).Some?
      ensures exists t :: t in slots && Fill(r, load, path, t) == Derive(r, load, path, e)
    {
      if e.sessionID in current {
        var s :| s in summaries && IsFresh(true, known, s) && s.sessionID == e.sessionID;
        assert Slot(s.mtimeMs, s.sessionID, SummaryToSessionInfo(s, path)) in slots;
      } else {
        assert Slot(e.mtimeMs, e.sessionID, None) in slots;
      }
    }
  }

  /** Without a page, the fast listing is the slow one. */
  lemma {:induction false} AllRowsAgree(r: TextRules, summaries: seq<SummaryEntry>, listing: seq<ListEntry>,
                                        load: string -> LoadResult, path: string)
    requires Coherent(r, summaries, listing, load, path)
    ensures Somes(Fills(r, load, path, Sorted(true, path, summaries, listing)))
      == Sort(DerivedRows(r, load, path, listing), InfoRank)
  {
    var slots, rows := Slots(true, path, summaries, listing), DerivedRows(r, load, path, listing);
    SlotsDistinct(path, summaries, listing);
    SortRanks(slots, SlotRank);
    DerivedDistinct(r, load, path, listing);
    DerivedAre(r, load, path, listing);
    SortRanks(rows, InfoRank);
    var sorted := Sorted(true, path, summaries, listing);
    SlotsCover(r, summaries, listing, load, path);
    FilledRanked(r, load, path, sorted);
    FilledIn(r, load, path, sorted);
    RankedUnique(Somes(Fills(r, load, path, sorted)), Sort(rows, InfoRank), InfoRank);
  }

  /** With coherent summaries the fast listing gives the slow one's page, for every limit and offset,
      exactly when no session shown comes after a gap-filled one that Load shows to be hidden. */
  lemma {:induction false} FastIsSlowIff(r: TextRules, summaries: seq<SummaryEntry>, listing: seq<ListEntry>,
                                         load: string -> LoadResult, path: string)
    requires Coherent(r, summaries, listing, load, path)
    ensures LostLast(Fills(r, load, path, Sorted(true, path, summaries, listing)))
       <==>
         forall limit, offset ::
           FastRows(r, true, summaries, listing, load, path, limit, offset)
             == SlowRows(r, listing, load, path, limit, offset)
  {
    var fills := Fills(r, load, path, Sorted(true, path, summaries, listing));
    PagesAgreeIff(fills);
    forall limit, offset
      ensures FastRows(r, true, summaries, listing, load, path, limit, offset) == Somes(Page(fills, limit, offset))
      ensures SlowRows(r, listing, load, path, limit, offset) == Page(Somes(fills), limit, offset)
    {
      PagedRows(r, summaries, listing, load, path, limit, offset);
    }
  }

  const LOST := ListEntry("a", 2)
  const SHOWN := ListEntry("b", 1)

  lemma {:induction false} TwoGaps(path: string)
    ensures Sorted(true, path, [], [LOST, SHOWN]) == [Slot(2, "a", None), Slot(1, "b", None)]
  {
    var listing := [LOST, SHOWN];
    assert FreshIDs(true, Known(listing), []) == {};
    assert Slots(true, path, [], listing) == GapSlots({}, listing);
    GapPair(LOST, SHOWN);
    SortedPair(Slot(2, "a", None), Slot(1, "b", None));
  }

  lemma {:induction false} GapPair(x: ListEntry, y: ListEntry)
    ensures GapSlots({}, [x, y]) == [Slot(x.mtimeMs, x.sessionID, None), Slot(y.mtimeMs, y.sessionID, None)]
  {
    assert [x, y][..1] == [x] && [x][..0] == [];
    assert GapSlots({}, [x]) == [Slot(x.mtimeMs, x.sessionID, None)];
  }

  lemma {:induction false} SortedPair(x: Slot, y: Slot)
    requires Above(SlotRank(x), SlotRank(y))
    ensures Sort([x, y], SlotRank) == [x, y]
  {
    AboveTotal(SlotRank(x), SlotRank(y));
    assert [x, y][..1] == [x] && [x][..0] == [];
    assert Sort([], SlotRank) == [];
    assert Sort([x], SlotRank) == [x];
  }

  /** A coherent store whose listings differ, whatever the rules: of two sessions without a summary the newer has
      nothing to show. The first page of one row is empty by summaries, and the other session by loading. */
  lemma {:induction false} LostRowShows(r: TextRules, load: string -> LoadResult, path: string)
    requires Derive(r, load, path, LOST).None? && Derive(r, load, path, SHOWN).Some?
    ensures Coherent(r, [], [LOST, SHOWN], load, path)
    ensures FastRows(r, true, [], [LOST, SHOWN], load, path, 1, 0) == []
    ensures SlowRows(r, [LOST, SHOWN], load, path, 1, 0) == [Derive(r, load, path, SHOWN).value]
  {
    LostFills(r, load, path);
    PagedRows(r, [], [LOST, SHOWN], load, path, 1, 0);
    NoneThenSome(Derive(r, load, path, SHOWN).value);
  }

  lemma {:induction false} LostFills(r: TextRules, load: string -> LoadResult, path: string)
    requires Derive(r, load, path, LOST).None? && Derive(r, load, path, SHOWN).Some?
    ensures Fills(r, load, path, Sorted(true, path, [], [LOST, SHOWN]))
      == [None, Some(Derive(r, load, path, SHOWN).value)]
  {
    TwoGaps(path);
  }

  lemma NoneThenSome<T>(x: T)
    ensures Somes(Page([None, Some(x)], 1, 0)) == [] && Page(Somes([None, Some(x)]), 1, 0) == [x]
  {
    var s: seq<Option<T>> := [None, Some(x)];
    var first: seq<Option<T>> := [None];
    assert s[..1] == first && first[..0] == [];
    assert Page(s, 1, 0) == first && Somes(first) == [];
    assert Somes(s) == [x];
  }

  const TITLED: Entry := map[Type := Str("custom-title"), CustomTitle := Str("t")]

  /** One such store: the newer session's transcript is empty, the older one's a title. */
  lemma {:induction false} ListingsCanDiffer(r: TextRules, path: string)
    ensures var load: string -> LoadResult := id => if id == "b" then Loaded([TITLED]) else Loaded([]);
      FastRows(r, true, [], [LOST, SHOWN], load, path, 1, 0) != SlowRows(r, [LOST, SHOWN], load, path, 1, 0)
  {
    var load: string -> LoadResult := id => if id == "b" then Loaded([TITLED]) else Loaded([]);
    FoldMeansHistory(r, [TITLED]);
    var d := Fold(r, map[], [TITLED]);
    assert StringIn(CustomTitleKey)([TITLED][0]) == Some(Str("t"));
    assert Lookup(d, CustomTitleKey) == Some(Str("t"));
    assert Lookup(d, Sidechain) == SidechainOf([TITLED][0]);
    LostRowShows(r, load, path);
  }

  lemma FillsPage(r: TextRules, load: string -> LoadResult, path: string, slots: seq<Slot>, limit: int, offset: int)
    ensures Fills(r, load, path, Page(slots, limit, offset)) == Page(Fills(r, load, path, slots), limit, offset)
  {
    var fills := Fills(r, load, path, slots);
    PageIsSlice(slots, limit, offset);
    PageIsSlice(fills, limit, offset);
    var lo, hi := Start(|slots|, offset), End(|slots|, limit, offset);
    assert forall i :: 0 <= i < hi - lo ==> Fills(r, load, path, slots[lo..hi])[i] == fills[lo..hi][i];
  }

  lemma {:induction false} PagedRows(r: TextRules, summaries: seq<SummaryEntry>, listing: seq<ListEntry>,
                                     load: string -> LoadResult, path: string, limit: int, offset: int)
    requires Coherent(r, summaries, listing, load, path)
    ensures var fills := Fills(r, load, path, Sorted(true, path, summaries, listing));
      && FastRows(r, true, summaries, listing, load, path, limit, offset) == Somes(Page(fills, limit, offset))
      && SlowRows(r, listing, load, path, limit, offset) == Page(Somes(fills), limit, offset)
  {
    AllRowsAgree(r, summaries, listing, load, path);
    FillsPage(r, load, path, Sorted(true, path, summaries, listing), limit, offset);
  }

  function LoadFrom(s: State, projectKey: string): string -> LoadResult {
    id => Loaded(EntriesAt(s, SessionKey(projectKey, id, "")))
  }

  // What the rows show.

  /** x is the row of a listed session: what its history gives, and a bare one if its Load fails. */
  ghost predicate GivesRow(r: TextRules, load: string -> LoadResult, path: string, e: ListEntry, x: SessionInfo) {
    match load(e.sessionID)
    case LoadFailed => x == SessionInfo(e.sessionID, "", e.mtimeMs, "", "", "", "", "", 0)
    case Loaded(entries) => entries != [] && RowIs(r, e.sessionID, entries, e.mtimeMs, path, Some(x))
  }

  lemma DeriveGives(r: TextRules, load: string -> LoadResult, path: string, e: ListEntry, x: SessionInfo)
    ensures Derive(r, load, path, e) == Some(x) <==> GivesRow(r, load, path, e, x)
  {
    match load(e.sessionID) {
      case LoadFailed =>
      case Loaded(entries) =>
        RowMeans(r, e.sessionID, entries, e.mtimeMs, path);
        if entries != [] && GivesRow(r, load, path, e, x) {
          RowUnique(r, e.sessionID, entries, e.mtimeMs, path, Some(x), Derive(r, load, path, e));
        }
    }
  }

  predicate Newer(x: SessionInfo, y: SessionInfo) {
    x.lastModified > y.lastModified || (x.lastModified == y.lastModified && Less(x.sessionID, y.sessionID))
  }

  ghost predicate NewestFirst(all: seq<SessionInfo>) {
    forall i, j :: 0 <= i < j < |all| ==> Newer(all[i], all[j])
  }

  /** Whatever a store lists and loads, the rows are those of the listed sessions that have one, the newest first,
      and a listing is a page of them. */
  lemma {:induction false} LoadedRowsShow(r: TextRules, listing: seq<ListEntry>, load: string -> LoadResult,
                                          path: string) returns (all: seq<SessionInfo>)
    requires DistinctIDs(listing)
    ensures NewestFirst(all)
    ensures forall x :: x in all <==> exists e :: e in listing && GivesRow(r, load, path, e, x)
    ensures forall limit, offset :: SlowRows(r, listing, load, path, limit, offset) == Page(all, limit, offset)
  {
    var rows := DerivedRows(r, load, path, listing);
    DerivedDistinct(r, load, path, listing);
    SortRanks(rows, InfoRank);
    all := Sort(rows, InfoRank);
    forall i, j | 0 <= i < j < |all| ensures Newer(all[i], all[j]) {
      assert Above(InfoRank(all[i]), InfoRank(all[j]));
    }
    DerivedAre(r, load, path, listing);
    forall x ensures x in all <==> exists e :: e in listing && GivesRow(r, load, path, e, x) {
      RowsGiven(r, listing, load, path, x);
    }
  }

  lemma RowsGiven(r: TextRules, listing: seq<ListEntry>, load: string -> LoadResult, path: string, x: SessionInfo)
    ensures (exists e :: e in listing && Derive(r, load, path, e) == Some(x))
      <==> exists e :: e in listing && GivesRow(r, load, path, e, x)
  {
    forall e | e in listing ensures Derive(r, load, path, e) == Some(x) <==> GivesRow(r, load, path, e, x) {
      DeriveGives(r, load, path, e, x);
    }
  }

  /** x is the row that the history of one of the project's sessions gives. */
  ghost predicate IsRow(r: TextRules, s: State, projectKey: string, path: string, x: SessionInfo) {
    var k := SessionKey(projectKey, x.sessionID, "");
    k in s.items && RowIs(r, x.sessionID, s.items[k].entries, s.items[k].mtimeMs, path, Some(x))
  }

  /** The project's rows, the newest first, one for every session that has one. */
  ghost predicate AreRows(r: TextRules, s: State, projectKey: string, path: string, all: seq<SessionInfo>) {
    NewestFirst(all) && forall x :: x in all <==> IsRow(r, s, projectKey, path, x)
  }

  lemma StoredRow(r: TextRules, s: State, projectKey: string, path: string, listing: seq<ListEntry>, x: SessionInfo)
    requires Agrees(r, s) && IsListing(s, projectKey, listing)
    ensures (exists e :: e in listing && GivesRow(r, LoadFrom(s, projectKey), path, e, x))
      <==> IsRow(r, s, projectKey, path, x)
  {
    if IsRow(r, s, projectKey, path, x) {
      var k := SessionKey(projectKey, x.sessionID, "");
      var e := ListEntry(x.sessionID, s.items[k].mtimeMs);
      assert e in listing && GivesRow(r, LoadFrom(s, projectKey), path, e, x);
    }
  }

  /** The listing shows, page by page, the rows that the sessions' histories give. */
  lemma {:induction false} SlowRowsShow(r: TextRules, s: State, projectKey: string, path: string,
                                        listing: seq<ListEntry>) returns (all: seq<SessionInfo>)
    requires Agrees(r, s) && IsListing(s, projectKey, listing)
    ensures AreRows(r, s, projectKey, path, all)
    ensures forall limit, offset ::
      SlowRows(r, listing, LoadFrom(s, projectKey), path, limit, offset) == Page(all, limit, offset)
  {
    all := LoadedRowsShow(r, listing, LoadFrom(s, projectKey), path);
    forall x ensures x in all <==> IsRow(r, s, projectKey, path, x) {
      StoredRow(r, s, projectKey, path, listing, x);
    }
  }

  lemma MemoryCoherent(r: TextRules, s: State, projectKey: string, path: string, summaries: seq<SummaryEntry>,
                       listing: seq<ListEntry>)
    requires Agrees(r, s) && IsSummaryListing(s, projectKey, summaries) && IsListing(s, projectKey, listing)
    ensures Coherent(r, summaries, listing, LoadFrom(s, projectKey), path)
    ensures forall x :: x in Slots(true, path, summaries, listing) ==> x.info.Some?
  {
    var load := LoadFrom(s, projectKey);
    OwnIDs(r, s);
    forall i, j | 0 <= i < j < |summaries| ensures summaries[i].sessionID != summaries[j].sessionID {
      assert summaries[i] in summaries && summaries[j] in summaries;
    }
    forall x, e | x in summaries && e in listing && x.sessionID == e.sessionID
      ensures x.mtimeMs == e.mtimeMs && SummaryToSessionInfo(x, path) == Derive(r, load, path, e)
    {
      assert Folded(r, s, SessionKey(projectKey, e.sessionID, ""));
    }
    var known := Known(listing);
    KnownAt(listing);
    SummarySlotsAre(true, known, path, summaries);
    var current := FreshIDs(true, known, summaries);
    GapsAre(current, listing);
    forall e | e in listing ensures e.sessionID in current {
      var k := SessionKey(projectKey, e.sessionID, "");
      assert Folded(r, s, k);
      var x := s.summaries[(projectKey, e.sessionID)];
      assert x in summaries && IsFresh(true, known, x);
    }
  }

  /** A transcript that is there later is the same, or was written since. */
  ghost predicate SinceOrSame(s: State, t: State, k: SessionKey)
    requires k in t.items
  {
    (k in s.items && t.items[k] == s.items[k]) || t.items[k].mtimeMs > s.lastMtime
  }

  lemma {:induction false} LaterWrites(r: TextRules, s: State, ops: seq<Op>, k: SessionKey)
    ensures var t := Run(r, s, ops); t.lastMtime >= s.lastMtime && (k in t.items ==> SinceOrSame(s, t, k))
  {
    if ops != [] {
      LaterWrites(r, s, ops[..|ops| - 1], k);
    }
  }

  lemma LaterSummary(r: TextRules, s: State, ops: seq<Op>, projectKey: string, path: string, x: SummaryEntry,
                     e: ListEntry)
    requires Agrees(r, s) && e.sessionID == x.sessionID && x.mtimeMs >= e.mtimeMs
    requires (projectKey, x.sessionID) in s.summaries && s.summaries[(projectKey, x.sessionID)] == x
    requires var t, k := Run(r, s, ops), SessionKey(projectKey, e.sessionID, "");
      k in t.items && t.items[k].mtimeMs == e.mtimeMs
    ensures SummaryToSessionInfo(x, path) == Derive(r, LoadFrom(Run(r, s, ops), projectKey), path, e)
  {
    var k := SessionKey(projectKey, e.sessionID, "");
    LaterWrites(r, s, ops, k);
    assert Folded(r, s, k);
  }

  /** The summaries are fetched first, and the store may be written to before the listing: a summary taken for
      current still says what the entries loaded then say, and without a page the listings agree. */
  lemma {:induction false} LaterCoherent(r: TextRules, s: State, ops: seq<Op>, projectKey: string, path: string,
                                         summaries: seq<SummaryEntry>, listing: seq<ListEntry>)
    requires Agrees(r, s) && IsSummaryListing(s, projectKey, summaries)
    requires IsListing(Run(r, s, ops), projectKey, listing)
    ensures var load := LoadFrom(Run(r, s, ops), projectKey);
      && Coherent(r, summaries, listing, load, path)
      && FastRows(r, true, summaries, listing, load, path, 0, 0) == SlowRows(r, listing, load, path, 0, 0)
  {
    var t := Run(r, s, ops);
    var load := LoadFrom(t, projectKey);
    OwnIDs(r, s);
    forall i, j | 0 <= i < j < |summaries| ensures summaries[i].sessionID != summaries[j].sessionID {
      assert summaries[i] in summaries && summaries[j] in summaries;
    }
    forall x, e | x in summaries && e in listing && x.sessionID == e.sessionID && x.mtimeMs >= e.mtimeMs
      ensures SummaryToSessionInfo(x, path) == Derive(r, load, path, e)
    {
      LaterSummary(r, s, ops, projectKey, path, x, e);
    }
    PagedRows(r, summaries, listing, load, path, 0, 0);
  }

  /** In every state an in-memory store can reach, and in whatever order its maps are iterated, the
      summary-based listing is the one that loads every session. */
  lemma {:induction false} MemoryFastIsSlow(r: TextRules, ops: seq<Op>, projectKey: string, path: string,
                         summaries: seq<SummaryEntry>, listing: seq<ListEntry>, other: seq<ListEntry>, limit: int,
                         offset: int)
    requires var s := Run(r, EMPTY, ops);
      IsSummaryListing(s, projectKey, summaries) && IsListing(s, projectKey, listing) && IsListing(s, projectKey, other)
    ensures var load := LoadFrom(Run(r, EMPTY, ops), projectKey);
      FastRows(r, true, summaries, listing, load, path, limit, offset) == SlowRows(r, other, load, path, limit, offset)
  {
    var s := Run(r, EMPTY, ops);
    ReachableAgrees(r, ops);
    StateFastIsSlow(r, s, projectKey, path, summaries, listing, other, limit, offset);
  }

  lemma {:induction false} StateFastIsSlow(r: TextRules, s: State, projectKey: string, path: string,
                        summaries: seq<SummaryEntry>, listing: seq<ListEntry>, other: seq<ListEntry>, limit: int,
                        offset: int)
    requires Agrees(r, s)
    requires IsSummaryListing(s, projectKey, summaries) && IsListing(s, projectKey, listing)
      && IsListing(s, projectKey, other)
    ensures var load := LoadFrom(s, projectKey);
      FastRows(r, true, summaries, listing, load, path, limit, offset) == SlowRows(r, other, load, path, limit, offset)
  {
    var load := LoadFrom(s, projectKey);
    MemoryCoherent(r, s, projectKey, path, summaries, listing);
    var slots := Slots(true, path, summaries, listing);
    var sorted := Sorted(true, path, summaries, listing);
    InMultiset(sorted, slots);
    var fills := Fills(r, load, path, sorted);
    forall i | 0 <= i < |fills| ensures fills[i].Some? {
      assert sorted[i] in slots;
    }
    assert LostLast(fills);
    FastIsSlowIff(r, summaries, listing, load, path);
    SameRows(r, s, projectKey, path, listing, other);
  }

  lemma {:induction false} SameRows(r: TextRules, s: State, projectKey: string, path: string, listing: seq<ListEntry>,
                                    other: seq<ListEntry>)
    requires IsListing(s, projectKey, listing) && IsListing(s, projectKey, other)
    ensures var load := LoadFrom(s, projectKey);
      Sort(DerivedRows(r, load, path, listing), InfoRank) == Sort(DerivedRows(r, load, path, other), InfoRank)
  {
    var load := LoadFrom(s, projectKey);
    var a, b := DerivedRows(r, load, path, listing), DerivedRows(r, load, path, other);
    DerivedAre(r, load, path, listing);
    DerivedAre(r, load, path, other);
    DerivedDistinct(r, load, path, listing);
    DerivedDistinct(r, load, path, other);
    SortRanks(a, InfoRank);
    SortRanks(b, InfoRank);
    assert forall e :: e in listing <==> e in other;
    RankedUnique(Sort(a, InfoRank), Sort(b, InfoRank), InfoRank);
  }

  /** The listing of an in-memory store, asked with its summaries or without. */
  method ListMemory(store: MemorySessionStore, withSummaries: bool, projectKey: string, path: string, limit: int,
                    offset: int)
    returns (out: ListResult)
    requires store.Valid()
    ensures forall other :: IsListing(store.View(), projectKey, other) ==>
      out == Listed(SlowRows(store.rules, other, LoadFrom(store.View(), projectKey), path, limit, offset))
    ensures exists all ::
      AreRows(store.rules, store.View(), projectKey, path, all) && out == Listed(Page(all, limit, offset))
  {
    ghost var s := store.View();
    var load := LoadFrom(store.View(), projectKey);
    var listing := store.ListSessions(projectKey);
    var summaries := Unsupported;
    if withSummaries {
      var rows := store.ListSessionSummaries(projectKey);
      summaries := Got(rows);
    }
    assert DistinctIDs(listing);
    ghost var filled;
    out, filled := ListSessionsFromStore(store.rules, summaries, Got(listing), load, path, limit, offset);
    forall other | IsListing(s, projectKey, other)
      ensures out == Listed(SlowRows(store.rules, other, LoadFrom(s, projectKey), path, limit, offset))
    {
      SameRows(store.rules, s, projectKey, path, listing, other);
      if withSummaries {
        StateFastIsSlow(store.rules, s, projectKey, path, summaries.rows, listing, other, limit, offset);
      }
    }
    ghost var all := SlowRowsShow(store.rules, s, projectKey, path, listing);
  }
}
