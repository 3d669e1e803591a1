/** Listing the sessions of the file store: domains/sessions/list_from_store.go over domains/sessions/file_store.go. */
module FileListing {
  import opened Json
  import opened Seqs
  import opened Order
  import opened Summary
  import opened MemoryStore
  import opened Listing
  import opened Hex
  import opened FileStore

  function FileLoad(c: FileCodec, files: Files, projectKey: string): string -> LoadResult {
    id =>
      if !Bytes(projectKey) || !Bytes(id) then Loaded([])
      else match LoadFile(c, files, SessionKey(projectKey, id, "")) case None => LoadFailed case Some(es) => Loaded(es)
  }

  // Loads that give the same give the same listing.

  ghost predicate SameLoads(a: string -> LoadResult, b: string -> LoadResult) {
    forall id :: a(id) == b(id)
  }

  lemma {:induction false} SameDerived(r: TextRules, a: string -> LoadResult, b: string -> LoadResult, path: string,
                                       listing: seq<ListEntry>)
    requires SameLoads(a, b)
    ensures DerivedRows(r, a, path, listing) == DerivedRows(r, b, path, listing)
  {
    if listing != [] {
      SameDerived(r, a, b, path, listing[..|listing| - 1]);
      assert a(listing[|listing| - 1].sessionID) == b(listing[|listing| - 1].sessionID);
    }
  }

  lemma SameFills(r: TextRules, a: string -> LoadResult, b: string -> LoadResult, path: string, slots: seq<Slot>)
    requires SameLoads(a, b)
    ensures Fills(r, a, path, slots) == Fills(r, b, path, slots)
  {
    forall i | 0 <= i < |slots| ensures Fill(r, a, path, slots[i]) == Fill(r, b, path, slots[i]) {
      assert a(slots[i].id) == b(slots[i].id);
    }
  }

  /** The file store loads what its state holds. */
  lemma LoadsState(r: TextRules, c: FileCodec, files: Files, mtimes: Mtimes, m: Contents, projectKey: string)
    requires RoundTrips(c) && Holds(r, c, files, m) && Stamped(c, files, mtimes, m)
    ensures SameLoads(LoadFrom(FileState(c, files, mtimes, m), projectKey), FileLoad(c, files, projectKey))
  {
    var s := FileState(c, files, mtimes, m);
    forall id ensures LoadFrom(s, projectKey)(id) == FileLoad(c, files, projectKey)(id) {
      FileItems(r, c, files, mtimes, m, SessionKey(projectKey, id, ""));
      if Bytes(projectKey) && Bytes(id) {
        LoadHolds(r, c, files, m, SessionKey(projectKey, id, ""));
      }
    }
  }

  lemma {:induction false} StampedFastIsSlow(r: TextRules, c: FileCodec, files: Files, mtimes: Mtimes, m: Contents,
                        projectKey: string, path: string, summaries: seq<SummaryEntry>, listing: seq<ListEntry>,
                        other: seq<ListEntry>, limit: int, offset: int)
    requires RoundTrips(c) && Holds(r, c, files, m) && Stamped(c, files, mtimes, m)
    requires var s := FileState(c, files, mtimes, m);
      IsSummaryListing(s, projectKey, summaries) && IsListing(s, projectKey, listing) && IsListing(s, projectKey, other)
    ensures var load := FileLoad(c, files, projectKey);
      FastRows(r, true, summaries, listing, load, path, limit, offset) == SlowRows(r, other, load, path, limit, offset)
  {
    var s := FileState(c, files, mtimes, m);
    var load, held := FileLoad(c, files, projectKey), LoadFrom(s, projectKey);
    LoadsState(r, c, files, mtimes, m, projectKey);
    FileAgrees(r, c, files, mtimes, m);
    StateFastIsSlow(r, s, projectKey, path, summaries, listing, other, limit, offset);
    SameDerived(r, held, load, path, other);
    SameFills(r, held, load, path, Page(Sort(Slots(true, path, summaries, listing), SlotRank), limit, offset));
  }

  function RunMtimes(mtimes: Mtimes, ops: seq<Op>): Mtimes
    requires forall i :: 0 <= i < |ops| ==> ByteKey(ops[i].key)
  {
    if ops == [] then mtimes
    else
      var mtimes' := RunMtimes(mtimes, ops[..|ops| - 1]);
      match ops[|ops| - 1]
      case AppendOp(key, entries, now) => StampTo(mtimes', key, entries, now)
      case DeleteOp(key) => RemoveFrom(mtimes', key)
  }

  lemma {:induction false} RunStamped(r: TextRules, c: FileCodec, ops: seq<Op>)
    requires RoundTrips(c) && forall i :: 0 <= i < |ops| ==> ByteKey(ops[i].key)
    ensures Stamped(c, RunFiles(r, c, map[], ops), RunMtimes(map[], ops), MemoryContents(Run(r, EMPTY, ops)))
  {
    if ops != [] {
      var front := ops[..|ops| - 1];
      RunStamped(r, c, front);
      var files, mtimes, s := RunFiles(r, c, map[], front), RunMtimes(map[], front), Run(r, EMPTY, front);
      match ops[|ops| - 1] {
        case AppendOp(key, entries, now) =>
          MemoryRefines(r, s, key, entries, now);
          WriteStamped(r, c, files, mtimes, MemoryContents(s), key, entries, now);
        case DeleteOp(key) =>
          MemoryRefines(r, s, key, [], 0);
          RemoveStamped(c, files, mtimes, MemoryContents(s), key);
      }
    }
  }

  /** Because every sidecar is stamped from the file system's own clock after the append lands, the summary-based
      listing of the file store is the one that loads every session: after any appends and deletes, on every page,
      in whatever order the directories are read and whatever the clock says. */
  lemma {:induction false} FileFastIsSlow(r: TextRules, c: FileCodec, ops: seq<Op>, projectKey: string, path: string,
                        summaries: seq<SummaryEntry>, listing: seq<ListEntry>, other: seq<ListEntry>, limit: int,
                        offset: int)
    requires RoundTrips(c) && forall i :: 0 <= i < |ops| ==> ByteKey(ops[i].key)
    requires var m := MemoryContents(Run(r, EMPTY, ops));
      var s := FileState(c, RunFiles(r, c, map[], ops), RunMtimes(map[], ops), m);
      IsSummaryListing(s, projectKey, summaries) && IsListing(s, projectKey, listing) && IsListing(s, projectKey, other)
    ensures var load := FileLoad(c, RunFiles(r, c, map[], ops), projectKey);
      FastRows(r, true, summaries, listing, load, path, limit, offset) == SlowRows(r, other, load, path, limit, offset)
  {
    RunHolds(r, c, ops);
    RunStamped(r, c, ops);
    StampedFastIsSlow(r, c, RunFiles(r, c, map[], ops), RunMtimes(map[], ops), MemoryContents(Run(r, EMPTY, ops)),
                      projectKey, path, summaries, listing, other, limit, offset);
  }

  /** Listing a file store, by summaries or by loading, gives the page of rows its transcripts derive. */
  method ListFiles(store: FileSessionStore, withSummaries: bool, projectKey: string, path: string, limit: int,
                   offset: int)
    returns (out: ListResult)
    requires store.Valid() && Bytes(projectKey)
    ensures forall other :: IsListing(store.View(), projectKey, other) ==>
      out == Listed(SlowRows(store.rules, other, FileLoad(store.codec, store.files, projectKey), path, limit, offset))
    ensures exists all ::
      AreRows(store.rules, store.View(), projectKey, path, all) && out == Listed(Page(all, limit, offset))
  {
    var load := FileLoad(store.codec, store.files, projectKey);
    var listing := store.ListSessions(projectKey);
    var summaries := Unsupported;
    if withSummaries {
      var rows := store.ListSessionSummaries(projectKey);
      summaries := Got(rows);
    }
    ghost var filled;
    out, filled := ListSessionsFromStore(store.rules, summaries, Got(listing), load, path, limit, offset);
    forall other | IsListing(store.View(), projectKey, other)
      ensures out == Listed(SlowRows(store.rules, other, load, path, limit, offset))
    {
      if withSummaries {
        StampedFastIsSlow(store.rules, store.codec, store.files, store.mtimes, store.stored, projectKey, path,
                          summaries.rows, listing, other, limit, offset);
      } else {
        LoadsState(store.rules, store.codec, store.files, store.mtimes, store.stored, projectKey);
        SameRows(store.rules, store.View(), projectKey, path, listing, other);
        SameDerived(store.rules, LoadFrom(store.View(), projectKey), load, path, listing);
        SameDerived(store.rules, LoadFrom(store.View(), projectKey), load, path, other);
      }
    }
    FileAgrees(store.rules, store.codec, store.files, store.mtimes, store.stored);
    LoadsState(store.rules, store.codec, store.files, store.mtimes, store.stored, projectKey);
    SameDerived(store.rules, LoadFrom(store.View(), projectKey), load, path, listing);
    ghost var all := SlowRowsShow(store.rules, store.View(), projectKey, path, listing);
  }
}
