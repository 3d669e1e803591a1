/** The file-backed session store: domains/sessions/file_store.go. */
module FileStore {
  import opened Json
  import opened Order
  import opened Summary
  import opened MemoryStore
  import opened Hex

  type Path = seq<string>

  /** A file system below the store's directory: the regular files by path. */
  type Files = map<Path, string>

  /** JSON for entries and for summaries. */
  datatype FileCodec = FileCodec(lines: Codec, encSum: SummaryEntry -> string, decSum: string -> Option<SummaryEntry>)

  ghost predicate RoundTrips(c: FileCodec) {
    Faithful(c.lines) && forall s :: c.decSum(c.encSum(s)) == Some(s)
  }

  predicate ByteKey(k: SessionKey) {
    Bytes(k.projectKey) && Bytes(k.sessionID) && Bytes(k.subpath)
  }

  function SessionDir(k: SessionKey): Path
    requires ByteKey(k)
  {
    [EncodePart(k.projectKey), EncodePart(k.sessionID)]
  }

  function TranscriptPath(k: SessionKey): Path
    requires ByteKey(k)
  {
    if k.subpath == "" then SessionDir(k) + ["main.jsonl"] else SessionDir(k) + ["sub", EncodePart(k.subpath) + JSONL]
  }

  function SummaryPath(k: SessionKey): Path
    requires ByteKey(k)
  {
    SessionDir(k) + ["summary.json"]
  }

  function TempPath(k: SessionKey): Path
    requires ByteKey(k)
  {
    SessionDir(k) + ["summary.json.tmp"]
  }

  /** Different keys have different transcript files, none of which is a summary. */
  lemma PathsInjective(k: SessionKey, l: SessionKey)
    requires ByteKey(k) && ByteKey(l)
    ensures TranscriptPath(k) == TranscriptPath(l) ==> k == l
    ensures TranscriptPath(k) != SummaryPath(l)
    ensures SessionDir(k) == SessionDir(l) <==> SameSession(k, l)
    ensures SummaryPath(k) == SummaryPath(l) ==> SameSession(k, l)
  {
    DirInjective(k, l);
    var a, b := TranscriptPath(k), TranscriptPath(l);
    assert a[..2] == SessionDir(k) && b[..2] == SessionDir(l) && SummaryPath(l)[..2] == SessionDir(l)
      && SummaryPath(k)[..2] == SessionDir(k);
    if a == b {
      if k.subpath == "" {
        assert |a| == 3;
      } else {
        assert |a| == 4 && a[3] == EncodePart(k.subpath) + JSONL && b[3] == EncodePart(l.subpath) + JSONL;
        assert a[3][..|a[3]| - 6] == EncodePart(k.subpath) && b[3][..|b[3]| - 6] == EncodePart(l.subpath);
        PartInjective(k.subpath, l.subpath);
      }
    }
    if |a| == 3 {
      assert a[2] == "main.jsonl" && SummaryPath(l)[2] == "summary.json";
      assert "main.jsonl"[0] != "summary.json"[0];
    }
  }

  lemma DirInjective(k: SessionKey, l: SessionKey)
    requires ByteKey(k) && ByteKey(l)
    ensures SessionDir(k) == SessionDir(l) <==> SameSession(k, l)
  {
    if SessionDir(k) == SessionDir(l) {
      assert SessionDir(k)[0] == SessionDir(l)[0] && SessionDir(k)[1] == SessionDir(l)[1];
      PartInjective(k.projectKey, l.projectKey);
      PartInjective(k.sessionID, l.sessionID);
    }
  }

  function ReadOr(files: Files, p: Path): string {
    if p in files then files[p] else ""
  }

  function ReadSummary(c: FileCodec, files: Files, p: Path): Option<SummaryEntry> {
    if p in files then c.decSum(files[p]) else None
  }

  /** The files after an append; `mtime` is what the file system then reports for the transcript. */
  function WriteTo(r: TextRules, c: FileCodec, files: Files, key: SessionKey, entries: seq<Entry>, mtime: int): Files
    requires ByteKey(key)
  {
    if entries == [] then files
    else
      var p := TranscriptPath(key);
      var files := files[p := ReadOr(files, p) + Lines(c.lines, entries)];
      if key.subpath != "" then files
      else
        var prev := ReadSummary(c, files, SummaryPath(key));
        files[SummaryPath(key) := c.encSum(FoldSummary(r, prev, key.sessionID, entries).(mtimeMs := mtime))]
  }

  function RemoveFrom<T>(files: map<Path, T>, key: SessionKey): map<Path, T>
    requires ByteKey(key)
  {
    if key.subpath != "" then files - {TranscriptPath(key)}
    else map p | p in files && !(SessionDir(key) <= p) :: files[p]
  }

  // What both stores are: the entries appended under each key.

  type Contents = map<SessionKey, seq<Entry>>

  function StoredAt(m: Contents, key: SessionKey): seq<Entry> {
    if key in m then m[key] else []
  }

  function Added(m: Contents, key: SessionKey, entries: seq<Entry>): Contents {
    if entries == [] then m else m[key := StoredAt(m, key) + entries]
  }

  function Removed(m: Contents, key: SessionKey): Contents {
    if key.subpath != "" then m - {key} else map k | k in m && !SameSession(k, key) :: m[k]
  }

  function MemoryContents(s: State): Contents {
    map k | k in s.items :: s.items[k].entries
  }

  lemma MemoryRefines(r: TextRules, s: State, key: SessionKey, entries: seq<Entry>, now: int)
    ensures MemoryContents(AppendTo(r, s, key, entries, now)) == Added(MemoryContents(s), key, entries)
    ensures MemoryContents(DeleteFrom(s, key)) == Removed(MemoryContents(s), key)
  {
  }

  ghost predicate SummaryHolds(r: TextRules, c: FileCodec, files: Files, k: SessionKey, entries: seq<Entry>)
    requires ByteKey(k)
  {
    match ReadSummary(c, files, SummaryPath(k))
    case None => false
    case Some(s) => s.sessionID == k.sessionID && s.data == Fold(r, map[], entries)
  }

  ghost predicate FileHolds(r: TextRules, c: FileCodec, files: Files, m: Contents, k: SessionKey)
    requires k in m
  {
    && ByteKey(k) && m[k] != []
    && TranscriptPath(k) in files && files[TranscriptPath(k)] == Lines(c.lines, m[k])
    && (k.subpath == "" ==> SummaryHolds(r, c, files, k, m[k]))
  }

  /** p is the transcript or the summary of a stored key. */
  ghost predicate Owned(m: Contents, p: Path) {
    exists k :: k in m && ByteKey(k) && (p == TranscriptPath(k) || (k.subpath == "" && p == SummaryPath(k)))
  }

  /** The files hold exactly the contents, with up-to-date summaries. */
  ghost predicate Holds(r: TextRules, c: FileCodec, files: Files, m: Contents) {
    && (forall k {:trigger FileHolds(r, c, files, m, k)} :: k in m ==> FileHolds(r, c, files, m, k))
    && (forall p {:trigger Owned(m, p)} :: p in files ==> Owned(m, p))
  }

  lemma NotOwned(r: TextRules, c: FileCodec, files: Files, m: Contents, key: SessionKey)
    requires Holds(r, c, files, m) && ByteKey(key) && key !in m
    ensures TranscriptPath(key) !in files
    ensures key.subpath == "" ==> SummaryPath(key) !in files
  {
    if TranscriptPath(key) in files {
      assert Owned(m, TranscriptPath(key));
      var k :| k in m && ByteKey(k)
        && (TranscriptPath(key) == TranscriptPath(k) || (k.subpath == "" && TranscriptPath(key) == SummaryPath(k)));
      PathsInjective(key, k);
    }
    if key.subpath == "" && SummaryPath(key) in files {
      assert Owned(m, SummaryPath(key));
      var k :| k in m && ByteKey(k)
        && (SummaryPath(key) == TranscriptPath(k) || (k.subpath == "" && SummaryPath(key) == SummaryPath(k)));
      PathsInjective(k, key);
    }
  }

  lemma KeepsOther(r: TextRules, c: FileCodec, files: Files, m: Contents, key: SessionKey, entries: seq<Entry>,
                   mtime: int, k: SessionKey)
    requires Holds(r, c, files, m) && ByteKey(key) && entries != [] && k in m && k != key
    ensures FileHolds(r, c, WriteTo(r, c, files, key, entries, mtime), Added(m, key, entries), k)
  {
    assert FileHolds(r, c, files, m, k);
    PathsInjective(k, key);
    PathsInjective(key, k);
  }

  lemma WritesLines(r: TextRules, c: FileCodec, files: Files, m: Contents, key: SessionKey, entries: seq<Entry>,
                    mtime: int)
    requires Holds(r, c, files, m) && ByteKey(key) && entries != []
    ensures var files', p := WriteTo(r, c, files, key, entries, mtime), TranscriptPath(key);
      p in files' && files'[p] == Lines(c.lines, StoredAt(m, key) + entries)
  {
    PathsInjective(key, key);
    LinesConcat(c.lines, StoredAt(m, key), entries);
    if key in m {
      assert FileHolds(r, c, files, m, key);
    } else {
      NotOwned(r, c, files, m, key);
      assert Lines(c.lines, []) == "";
    }
  }

  lemma WritesSummary(r: TextRules, c: FileCodec, files: Files, m: Contents, key: SessionKey, entries: seq<Entry>,
                      mtime: int)
    requires RoundTrips(c) && Holds(r, c, files, m) && ByteKey(key) && entries != [] && key.subpath == ""
    ensures SummaryHolds(r, c, WriteTo(r, c, files, key, entries, mtime), key, StoredAt(m, key) + entries)
  {
    PathsInjective(key, key);
    FoldConcat(r, map[], StoredAt(m, key), entries);
    if key in m {
      assert FileHolds(r, c, files, m, key);
    } else {
      NotOwned(r, c, files, m, key);
      assert [] + entries == entries;
    }
  }

  lemma WritesOwn(r: TextRules, c: FileCodec, files: Files, m: Contents, key: SessionKey, entries: seq<Entry>,
                  mtime: int)
    requires RoundTrips(c) && Holds(r, c, files, m) && ByteKey(key) && entries != []
    ensures FileHolds(r, c, WriteTo(r, c, files, key, entries, mtime), Added(m, key, entries), key)
  {
    WritesLines(r, c, files, m, key, entries, mtime);
    if key.subpath == "" {
      WritesSummary(r, c, files, m, key, entries, mtime);
    }
  }

  lemma WriteHolds(r: TextRules, c: FileCodec, files: Files, m: Contents, key: SessionKey, entries: seq<Entry>,
                   mtime: int)
    requires RoundTrips(c) && Holds(r, c, files, m) && ByteKey(key)
    ensures Holds(r, c, WriteTo(r, c, files, key, entries, mtime), Added(m, key, entries))
  {
    if entries != [] {
      var files', m' := WriteTo(r, c, files, key, entries, mtime), Added(m, key, entries);
      WritesOwn(r, c, files, m, key, entries, mtime);
      forall k | k in m' ensures FileHolds(r, c, files', m', k) {
        if k != key {
          KeepsOther(r, c, files, m, key, entries, mtime, k);
        }
      }
      forall p | p in files' ensures Owned(m', p) {
        if p != TranscriptPath(key) && p != SummaryPath(key) {
          assert Owned(m, p);
        } else if p == TranscriptPath(key) || key.subpath == "" {
          assert key in m';
        } else {
          assert Owned(m, p);
        }
      }
    }
  }

  lemma InDir(k: SessionKey, key: SessionKey)
    requires ByteKey(k) && ByteKey(key)
    ensures SessionDir(key) <= TranscriptPath(k) <==> SameSession(k, key)
    ensures SessionDir(key) <= SummaryPath(k) <==> SameSession(k, key)
  {
    DirInjective(k, key);
    assert TranscriptPath(k)[..2] == SessionDir(k) && SummaryPath(k)[..2] == SessionDir(k);
  }

  lemma RemoveKeeps(r: TextRules, c: FileCodec, files: Files, m: Contents, key: SessionKey, k: SessionKey)
    requires Holds(r, c, files, m) && ByteKey(key) && k in Removed(m, key)
    ensures FileHolds(r, c, RemoveFrom(files, key), Removed(m, key), k)
  {
    assert FileHolds(r, c, files, m, k);
    var files' := RemoveFrom(files, key);
    InDir(k, key);
    PathsInjective(k, key);
    PathsInjective(key, k);
    assert TranscriptPath(k) in files' && files'[TranscriptPath(k)] == files[TranscriptPath(k)];
    assert SummaryPath(k) in files ==> SummaryPath(k) in files' && files'[SummaryPath(k)] == files[SummaryPath(k)];
  }

  lemma RemoveOwned(r: TextRules, c: FileCodec, files: Files, m: Contents, key: SessionKey, p: Path)
    requires Holds(r, c, files, m) && ByteKey(key) && p in RemoveFrom(files, key)
    ensures Owned(Removed(m, key), p)
  {
    assert Owned(m, p);
    var k :| k in m && ByteKey(k) && (p == TranscriptPath(k) || (k.subpath == "" && p == SummaryPath(k)));
    InDir(k, key);
    assert k in Removed(m, key);
  }

  lemma RemoveHolds(r: TextRules, c: FileCodec, files: Files, m: Contents, key: SessionKey)
    requires Holds(r, c, files, m) && ByteKey(key)
    ensures Holds(r, c, RemoveFrom(files, key), Removed(m, key))
  {
    forall k | k in Removed(m, key) ensures FileHolds(r, c, RemoveFrom(files, key), Removed(m, key), k) {
      RemoveKeeps(r, c, files, m, key, k);
    }
    forall p | p in RemoveFrom(files, key) ensures Owned(Removed(m, key), p) {
      RemoveOwned(r, c, files, m, key, p);
    }
  }

  /** The file at p is there or not, and is the same. */
  predicate SameFile(files: Files, later: Files, p: Path) {
    (p in files <==> p in later) && (p in files ==> later[p] == files[p])
  }

  /** An append or a delete under one key leaves the transcript of every other key as it was, and the summary of
      every other session; only a delete of the session takes its other keys along. */
  lemma OthersSpared(r: TextRules, c: FileCodec, files: Files, key: SessionKey, entries: seq<Entry>, mtime: int,
                     k: SessionKey)
    requires ByteKey(key) && ByteKey(k) && k != key
    ensures SameFile(files, WriteTo(r, c, files, key, entries, mtime), TranscriptPath(k))
    ensures !SameSession(k, key) ==> SameFile(files, WriteTo(r, c, files, key, entries, mtime), SummaryPath(k))
    ensures key.subpath != "" || !SameSession(k, key) ==> SameFile(files, RemoveFrom(files, key), TranscriptPath(k))
    ensures key.subpath != "" || !SameSession(k, key) ==> SameFile(files, RemoveFrom(files, key), SummaryPath(k))
  {
    PathsInjective(k, key);
    PathsInjective(key, k);
    InDir(k, key);
  }

  // The clock of the file system.

  /** When each transcript was last written, as the file system reports it. */
  type Mtimes = map<Path, int>

  function StampTo(mtimes: Mtimes, key: SessionKey, entries: seq<Entry>, mtime: int): Mtimes
    requires ByteKey(key)
  {
    if entries == [] then mtimes else mtimes[TranscriptPath(key) := mtime]
  }

  /** The transcript has an mtime, and the summary beside a main one carries it. */
  ghost predicate StampedAt(c: FileCodec, files: Files, mtimes: Mtimes, k: SessionKey) {
    && ByteKey(k) && TranscriptPath(k) in mtimes
    && (k.subpath == "" ==>
          var read := ReadSummary(c, files, SummaryPath(k));
          read.Some? && read.value.mtimeMs == mtimes[TranscriptPath(k)])
  }

  ghost predicate Stamped(c: FileCodec, files: Files, mtimes: Mtimes, m: Contents) {
    forall k {:trigger StampedAt(c, files, mtimes, k)} :: k in m ==> StampedAt(c, files, mtimes, k)
  }

  /** An append leaves every summary stamped with its transcript's mtime, whatever the clock says. */
  lemma WriteStamped(r: TextRules, c: FileCodec, files: Files, mtimes: Mtimes, m: Contents, key: SessionKey,
                     entries: seq<Entry>, mtime: int)
    requires RoundTrips(c) && Stamped(c, files, mtimes, m) && ByteKey(key)
    ensures Stamped(c, WriteTo(r, c, files, key, entries, mtime), StampTo(mtimes, key, entries, mtime),
                    Added(m, key, entries))
  {
    var files', mtimes' := WriteTo(r, c, files, key, entries, mtime), StampTo(mtimes, key, entries, mtime);
    forall k | k in Added(m, key, entries) ensures StampedAt(c, files', mtimes', k) {
      if k != key {
        assert StampedAt(c, files, mtimes, k);
        PathsInjective(k, key);
        PathsInjective(key, k);
      } else if entries == [] {
        assert StampedAt(c, files, mtimes, k);
      }
    }
  }

  lemma RemoveStamped(c: FileCodec, files: Files, mtimes: Mtimes, m: Contents, key: SessionKey)
    requires Stamped(c, files, mtimes, m) && ByteKey(key)
    ensures Stamped(c, RemoveFrom(files, key), RemoveFrom(mtimes, key), Removed(m, key))
  {
    forall k | k in Removed(m, key) ensures StampedAt(c, RemoveFrom(files, key), RemoveFrom(mtimes, key), k) {
      assert StampedAt(c, files, mtimes, k);
      PathsInjective(k, key);
      PathsInjective(key, k);
      InDir(k, key);
    }
  }

  lemma NoMember(s: set<int>)
    ensures (forall x :: x !in s) ==> s == {}
  {
    if forall x :: x !in s {
      assert s == {};
    }
  }

  ghost function Latest(s: set<int>): (b: int)
    ensures forall t :: t in s ==> t <= b
  {
    if s == {} then 0
    else
      NoMember(s);
      var x :| x in s;
      var rest := s - {x};
      assert s == rest + {x};
      var latest := Latest(rest);
      if x > latest then x else latest
  }

  /** What the files hold, as the state of an in-memory store. */
  ghost function FileState(c: FileCodec, files: Files, mtimes: Mtimes, m: Contents): State {
    State(
      map k | k in m && StampedAt(c, files, mtimes, k) :: Transcript(m[k], mtimes[TranscriptPath(k)]),
      map k | k in m && StampedAt(c, files, mtimes, k) && k.subpath == "" ::
        (k.projectKey, k.sessionID) := ReadSummary(c, files, SummaryPath(k)).value,
      Latest(mtimes.Values))
  }

  lemma FileItems(r: TextRules, c: FileCodec, files: Files, mtimes: Mtimes, m: Contents, k: SessionKey)
    requires Holds(r, c, files, m) && Stamped(c, files, mtimes, m)
    ensures var s := FileState(c, files, mtimes, m);
      && (k in s.items <==> k in m)
      && (k in m ==>
            ByteKey(k) && TranscriptPath(k) in mtimes && s.items[k] == Transcript(m[k], mtimes[TranscriptPath(k)]))
  {
    if k in m {
      assert StampedAt(c, files, mtimes, k);
    }
  }

  lemma FileSummaries(r: TextRules, c: FileCodec, files: Files, mtimes: Mtimes, m: Contents, p: string, i: string)
    requires Holds(r, c, files, m) && Stamped(c, files, mtimes, m)
    ensures var s, k := FileState(c, files, mtimes, m), SessionKey(p, i, "");
      && ((p, i) in s.summaries <==> k in m)
      && (k in m ==> ByteKey(k) && ReadSummary(c, files, SummaryPath(k)) == Some(s.summaries[(p, i)]))
  {
    var k := SessionKey(p, i, "");
    if k in m {
      assert StampedAt(c, files, mtimes, k);
    }
  }

  /** The files are at all times in the state an in-memory store could be in, its summaries the folds of what is
      stored, stamped with the transcripts' own mtimes. */
  lemma FileAgrees(r: TextRules, c: FileCodec, files: Files, mtimes: Mtimes, m: Contents)
    requires Holds(r, c, files, m) && Stamped(c, files, mtimes, m)
    ensures Agrees(r, FileState(c, files, mtimes, m))
  {
    var s := FileState(c, files, mtimes, m);
    forall p, i ensures (p, i) in s.summaries <==> SessionKey(p, i, "") in s.items {
      FileSummaries(r, c, files, mtimes, m, p, i);
      FileItems(r, c, files, mtimes, m, SessionKey(p, i, ""));
    }
    forall k | k in s.items ensures s.items[k].entries != [] && s.items[k].mtimeMs <= s.lastMtime {
      FileItems(r, c, files, mtimes, m, k);
      assert FileHolds(r, c, files, m, k);
      assert mtimes[TranscriptPath(k)] in mtimes.Values;
    }
    forall k | k in s.items && k.subpath == "" ensures Folded(r, s, k) {
      FileFolded(r, c, files, mtimes, m, k);
    }
  }

  lemma FileFolded(r: TextRules, c: FileCodec, files: Files, mtimes: Mtimes, m: Contents, k: SessionKey)
    requires Holds(r, c, files, m) && Stamped(c, files, mtimes, m) && k in m && k.subpath == ""
    ensures var s := FileState(c, files, mtimes, m); k in s.items && Folded(r, s, k)
  {
    FileItems(r, c, files, mtimes, m, k);
    FileSummaries(r, c, files, mtimes, m, k.projectKey, k.sessionID);
    assert k == SessionKey(k.projectKey, k.sessionID, "");
    assert FileHolds(r, c, files, m, k) && StampedAt(c, files, mtimes, k);
  }

  // What the store answers.

  function Names(files: Files, dir: Path): set<string> {
    set p | p in files && |p| > |dir| && dir <= p :: p[|dir|]
  }

  predicate IsDir(files: Files, dir: Path) {
    exists p :: p in files && |p| > |dir| && dir <= p
  }

  function SubkeyOf(name: string): Option<string> {
    if Ext(name) != JSONL then None else DecodePart(name[..|name| - |JSONL|])
  }

  lemma SubkeyRoundTrip(s: string)
    requires Bytes(s)
    ensures SubkeyOf(EncodePart(s) + JSONL) == Some(s)
  {
    JsonlExt();
    ExtOfSuffix(EncodePart(s), JSONL);
    PartRoundTrip(s);
    var name := EncodePart(s) + JSONL;
    assert name[..|name| - |JSONL|] == EncodePart(s);
  }

  function SubDir(key: SessionKey): Path
    requires ByteKey(key)
  {
    SessionDir(key) + ["sub"]
  }

  lemma NameIsSubkey(r: TextRules, c: FileCodec, files: Files, m: Contents, key: SessionKey, name: string)
    returns (sub: string)
    requires Holds(r, c, files, m) && ByteKey(key) && name in Names(files, SubDir(key))
    ensures sub != "" && SessionKey(key.projectKey, key.sessionID, sub) in m && Bytes(sub)
      && name == EncodePart(sub) + JSONL
  {
    var dir := SubDir(key);
    var p :| p in files && |p| > |dir| && dir <= p && p[|dir|] == name;
    assert Owned(m, p);
    var k :| k in m && ByteKey(k) && (p == TranscriptPath(k) || (k.subpath == "" && p == SummaryPath(k)));
    assert SessionDir(key) <= p && |p| == 4;
    InDir(k, key);
    sub := k.subpath;
    assert k == SessionKey(key.projectKey, key.sessionID, sub);
  }

  lemma SubkeyHasName(r: TextRules, c: FileCodec, files: Files, m: Contents, key: SessionKey, sub: string)
    requires Holds(r, c, files, m) && ByteKey(key) && sub != "" && SessionKey(key.projectKey, key.sessionID, sub) in m
    ensures Bytes(sub) && EncodePart(sub) + JSONL in Names(files, SubDir(key))
  {
    var k := SessionKey(key.projectKey, key.sessionID, sub);
    assert FileHolds(r, c, files, m, k);
    var p := TranscriptPath(k);
    assert SubDir(key) <= p && p[3] == EncodePart(sub) + JSONL && p in files;
  }

  /** Some file of the session's sub directory stands for sub. */
  ghost predicate HasSubkey(files: Files, key: SessionKey, sub: string)
    requires ByteKey(key)
  {
    exists name :: name in Names(files, SubDir(key)) && SubkeyOf(name) == Some(sub)
  }

  /** The sub-transcripts a directory scan finds are those stored. */
  lemma SubkeysHold(r: TextRules, c: FileCodec, files: Files, m: Contents, key: SessionKey, sub: string)
    requires Holds(r, c, files, m) && ByteKey(key)
    ensures HasSubkey(files, key, sub) <==> sub != "" && SessionKey(key.projectKey, key.sessionID, sub) in m
  {
    if HasSubkey(files, key, sub) {
      var name :| name in Names(files, SubDir(key)) && SubkeyOf(name) == Some(sub);
      var s := NameIsSubkey(r, c, files, m, key, name);
      SubkeyRoundTrip(s);
    } else if sub != "" && SessionKey(key.projectKey, key.sessionID, sub) in m {
      SubkeyHasName(r, c, files, m, key, sub);
      SubkeyRoundTrip(sub);
      assert HasSubkey(files, key, sub);
    }
  }

  ghost predicate HasSession(m: Contents, projectKey: string, id: string) {
    exists k :: k in m && k.projectKey == projectKey && k.sessionID == id
  }

  lemma NameIsSession(r: TextRules, c: FileCodec, files: Files, m: Contents, projectKey: string, name: string)
    returns (id: string)
    requires Holds(r, c, files, m) && Bytes(projectKey) && name in Names(files, [EncodePart(projectKey)])
    ensures HasSession(m, projectKey, id) && Bytes(id) && name == EncodePart(id)
    ensures IsDir(files, [EncodePart(projectKey), name])
  {
    var dir := [EncodePart(projectKey)];
    var p :| p in files && |p| > |dir| && dir <= p && p[|dir|] == name;
    assert Owned(m, p);
    var k :| k in m && ByteKey(k) && (p == TranscriptPath(k) || (k.subpath == "" && p == SummaryPath(k)));
    assert p[..2] == SessionDir(k) && p[0] == EncodePart(projectKey);
    PartInjective(projectKey, k.projectKey);
    assert p[..2] == [EncodePart(projectKey), name] && |p| > 2;
    id := k.sessionID;
  }

  lemma SessionHasName(r: TextRules, c: FileCodec, files: Files, m: Contents, projectKey: string, id: string)
    requires Holds(r, c, files, m) && HasSession(m, projectKey, id)
    ensures Bytes(projectKey) && Bytes(id) && EncodePart(id) in Names(files, [EncodePart(projectKey)])
  {
    var k :| k in m && k.projectKey == projectKey && k.sessionID == id;
    assert FileHolds(r, c, files, m, k);
    var p := TranscriptPath(k);
    assert p[..2] == SessionDir(k) && [EncodePart(projectKey)] <= p && p[1] == EncodePart(id);
  }

  /** A session is listed if its directory's name decodes to it and it has a main transcript. */
  predicate IsListed(files: Files, projectKey: string, id: string)
    requires Bytes(projectKey)
  {
    exists name :: name in Names(files, [EncodePart(projectKey)]) && DecodePart(name) == Some(id)
                   && IsDir(files, [EncodePart(projectKey), name])
                   && [EncodePart(projectKey), name, "main.jsonl"] in files
  }

  lemma StoredIsListed(r: TextRules, c: FileCodec, files: Files, m: Contents, k: SessionKey)
    requires Holds(r, c, files, m) && k in m && k.subpath == ""
    ensures ByteKey(k) && IsListed(files, k.projectKey, k.sessionID)
  {
    assert FileHolds(r, c, files, m, k);
    var p, name := TranscriptPath(k), EncodePart(k.sessionID);
    PartRoundTrip(k.sessionID);
    assert p == [EncodePart(k.projectKey), name, "main.jsonl"];
    assert [EncodePart(k.projectKey)] <= p && p[1] == name && p in files;
    assert [EncodePart(k.projectKey), name] <= p;
    assert name in Names(files, [EncodePart(k.projectKey)]) && IsDir(files, [EncodePart(k.projectKey), name]);
  }

  lemma MainPathOwner(m: Contents, project: string, name: string) returns (l: SessionKey)
    requires Owned(m, [project, name, "main.jsonl"])
    ensures l in m && ByteKey(l) && l.subpath == "" && project == EncodePart(l.projectKey)
      && name == EncodePart(l.sessionID)
  {
    var p := [project, name, "main.jsonl"];
    l :| l in m && ByteKey(l) && (p == TranscriptPath(l) || (l.subpath == "" && p == SummaryPath(l)));
    assert p[2] != "summary.json" by {
      assert p[2][0] != "summary.json"[0];
    }
    assert p[0] == EncodePart(l.projectKey) && p[1] == EncodePart(l.sessionID);
  }

  lemma ListedHold(r: TextRules, c: FileCodec, files: Files, m: Contents, projectKey: string, id: string)
    requires Holds(r, c, files, m) && Bytes(projectKey)
    ensures IsListed(files, projectKey, id) <==> SessionKey(projectKey, id, "") in m
  {
    var k := SessionKey(projectKey, id, "");
    if k in m {
      StoredIsListed(r, c, files, m, k);
    }
    if IsListed(files, projectKey, id) {
      var name :| name in Names(files, [EncodePart(projectKey)]) && DecodePart(name) == Some(id)
                  && IsDir(files, [EncodePart(projectKey), name])
                  && [EncodePart(projectKey), name, "main.jsonl"] in files;
      assert Owned(m, [EncodePart(projectKey), name, "main.jsonl"]);
      var l := MainPathOwner(m, EncodePart(projectKey), name);
      PartInjective(projectKey, l.projectKey);
      PartRoundTrip(l.sessionID);
      assert l == k;
    }
  }

  function LoadFile(c: FileCodec, files: Files, key: SessionKey): Option<seq<Entry>>
    requires ByteKey(key)
  {
    if TranscriptPath(key) in files then Parse(c.lines, files[TranscriptPath(key)], 0) else Some([])
  }

  lemma LoadHolds(r: TextRules, c: FileCodec, files: Files, m: Contents, key: SessionKey)
    requires RoundTrips(c) && Holds(r, c, files, m) && ByteKey(key)
    ensures LoadFile(c, files, key) == Some(StoredAt(m, key))
  {
    if key in m {
      assert FileHolds(r, c, files, m, key);
      ReadBack(c.lines, "", m[key]);
      assert "" + Lines(c.lines, m[key]) == Lines(c.lines, m[key]);
    } else {
      NotOwned(r, c, files, m, key);
    }
  }

  // Both stores side by side.

  function RunFiles(r: TextRules, c: FileCodec, files: Files, ops: seq<Op>): Files
    requires forall i :: 0 <= i < |ops| ==> ByteKey(ops[i].key)
  {
    if ops == [] then files
    else
      var files' := RunFiles(r, c, files, ops[..|ops| - 1]);
      match ops[|ops| - 1]
      case AppendOp(key, entries, now) => WriteTo(r, c, files', key, entries, now)
      case DeleteOp(key) => RemoveFrom(files', key)
  }

  /** What a reader of session info sees, modification time aside. */
  function Timeless(i: Option<SessionInfo>): Option<SessionInfo> {
    if i.None? then None else Some(i.value.(lastModified := 0))
  }

  ghost predicate SameAnswers(r: TextRules, c: FileCodec, files: Files, s: State) {
    && (forall k :: ByteKey(k) ==> LoadFile(c, files, k) == Some(EntriesAt(s, k)))
    && (forall k, sub :: ByteKey(k) ==>
         (HasSubkey(files, k, sub) <==> sub != "" && SessionKey(k.projectKey, k.sessionID, sub) in s.items))
    && (forall p, id :: Bytes(p) ==> (IsListed(files, p, id) <==> SessionKey(p, id, "") in s.items))
    && (forall p, id, path :: Bytes(p) && Bytes(id) ==> SameInfo(c, files, s, p, id, path))
  }

  /** Both have a summary of the session or neither, and they give the same info. */
  ghost predicate SameInfo(c: FileCodec, files: Files, s: State, p: string, id: string, path: string)
    requires Bytes(p) && Bytes(id)
  {
    var read := ReadSummary(c, files, SummaryPath(SessionKey(p, id, "")));
    && (read.Some? <==> (p, id) in s.summaries)
    && (read.Some? ==>
          Timeless(SummaryToSessionInfo(read.value, path))
            == Timeless(SummaryToSessionInfo(s.summaries[(p, id)], path)))
  }

  lemma {:induction false} RunHolds(r: TextRules, c: FileCodec, ops: seq<Op>)
    requires RoundTrips(c) && forall i :: 0 <= i < |ops| ==> ByteKey(ops[i].key)
    ensures Holds(r, c, RunFiles(r, c, map[], ops), MemoryContents(Run(r, EMPTY, ops)))
  {
    if ops != [] {
      var front := ops[..|ops| - 1];
      RunHolds(r, c, front);
      var files, s := RunFiles(r, c, map[], front), Run(r, EMPTY, front);
      match ops[|ops| - 1] {
        case AppendOp(key, entries, now) =>
          MemoryRefines(r, s, key, entries, now);
          WriteHolds(r, c, files, MemoryContents(s), key, entries, now);
        case DeleteOp(key) =>
          MemoryRefines(r, s, key, [], 0);
          RemoveHolds(r, c, files, MemoryContents(s), key);
      }
    }
  }

  lemma LoadsAgree(r: TextRules, c: FileCodec, files: Files, s: State, k: SessionKey)
    requires RoundTrips(c) && Holds(r, c, files, MemoryContents(s)) && ByteKey(k)
    ensures LoadFile(c, files, k) == Some(EntriesAt(s, k))
  {
    LoadHolds(r, c, files, MemoryContents(s), k);
  }

  lemma TimelessInfo(a: SummaryEntry, b: SummaryEntry, path: string)
    requires a.sessionID == b.sessionID && a.data == b.data
    ensures Timeless(SummaryToSessionInfo(a, path)) == Timeless(SummaryToSessionInfo(b, path))
  {
  }

  lemma InfoAgrees(r: TextRules, c: FileCodec, files: Files, s: State, p: string, id: string, path: string)
    requires RoundTrips(c) && Agrees(r, s) && Holds(r, c, files, MemoryContents(s)) && Bytes(p) && Bytes(id)
    ensures SameInfo(c, files, s, p, id, path)
  {
    var k := SessionKey(p, id, "");
    if (p, id) in s.summaries {
      assert k in s.items;
      assert FileHolds(r, c, files, MemoryContents(s), k);
      assert Folded(r, s, k);
      TimelessInfo(ReadSummary(c, files, SummaryPath(k)).value, s.summaries[(p, id)], path);
    } else {
      NotOwned(r, c, files, MemoryContents(s), k);
    }
  }

  lemma SubkeyAgrees(r: TextRules, c: FileCodec, files: Files, s: State, k: SessionKey, sub: string)
    requires RoundTrips(c) && Holds(r, c, files, MemoryContents(s)) && ByteKey(k)
    ensures HasSubkey(files, k, sub) <==> sub != "" && SessionKey(k.projectKey, k.sessionID, sub) in s.items
  {
    SubkeysHold(r, c, files, MemoryContents(s), k, sub);
  }

  lemma ListedAgrees(r: TextRules, c: FileCodec, files: Files, s: State, p: string, id: string)
    requires RoundTrips(c) && Holds(r, c, files, MemoryContents(s)) && Bytes(p)
    ensures IsListed(files, p, id) <==> SessionKey(p, id, "") in s.items
  {
    ListedHold(r, c, files, MemoryContents(s), p, id);
  }

  lemma AnswersAgree(r: TextRules, c: FileCodec, files: Files, s: State)
    requires RoundTrips(c) && Agrees(r, s) && Holds(r, c, files, MemoryContents(s))
    ensures SameAnswers(r, c, files, s)
  {
    forall k | ByteKey(k) ensures LoadFile(c, files, k) == Some(EntriesAt(s, k)) {
      LoadsAgree(r, c, files, s, k);
    }
    forall k, sub | ByteKey(k)
      ensures HasSubkey(files, k, sub) <==> sub != "" && SessionKey(k.projectKey, k.sessionID, sub) in s.items
    {
      SubkeyAgrees(r, c, files, s, k, sub);
    }
    forall p, id | Bytes(p) ensures IsListed(files, p, id) <==> SessionKey(p, id, "") in s.items {
      ListedAgrees(r, c, files, s, p, id);
    }
    forall p, id, path | Bytes(p) && Bytes(id) ensures SameInfo(c, files, s, p, id, path) {
      InfoAgrees(r, c, files, s, p, id, path);
    }
  }

  /** The file store and the memory store are bisimilar: after any sequence of appends and deletes
      they load the same entries, list the same sub-transcripts and sessions, and derive the same
      session info, modification times aside. */
  lemma {:induction false} Bisimilar(r: TextRules, c: FileCodec, ops: seq<Op>)
    requires RoundTrips(c) && forall i :: 0 <= i < |ops| ==> ByteKey(ops[i].key)
    ensures SameAnswers(r, c, RunFiles(r, c, map[], ops), Run(r, EMPTY, ops))
  {
    RunHolds(r, c, ops);
    ReachableAgrees(r, ops);
    AnswersAgree(r, c, RunFiles(r, c, map[], ops), Run(r, EMPTY, ops));
  }

  lemma NoTemp(m: Contents, key: SessionKey)
    requires ByteKey(key)
    ensures !Owned(m, TempPath(key)) && TranscriptPath(key) != TempPath(key)
  {
    var p := TempPath(key);
    assert |p| == 3 && |p[2]| == 16;
    forall k | k in m && ByteKey(k) ensures p != TranscriptPath(k) && p != SummaryPath(k) {
      assert |TranscriptPath(k)| == 3 ==> |TranscriptPath(k)[2]| == 10;
      assert |SummaryPath(k)[2]| == 12;
    }
    assert |TranscriptPath(key)| == 3 ==> |TranscriptPath(key)[2]| == 10;
  }

  lemma DropAbsent(files: Files, p: Path)
    requires p !in files
    ensures files - {p} == files
  {
  }

  method EncodeLines(c: Codec, entries: seq<Entry>) returns (buf: string)
    ensures buf == Lines(c, entries)
  {
    buf := "";
    for i := 0 to |entries|
      invariant buf == Lines(c, entries[..i])
    {
      assert entries[..i + 1][..i] == entries[..i];
      buf := buf + c.enc(entries[i]) + "\n";
    }
    assert entries[..|entries|] == entries;
  }

  ghost predicate ListsAs(s: State, projectKey: string, e: ListEntry) {
    var k := SessionKey(projectKey, e.sessionID, ""); k in s.items && s.items[k].mtimeMs == e.mtimeMs
  }

  ghost predicate SummarizedAs(s: State, projectKey: string, e: SummaryEntry) {
    (projectKey, e.sessionID) in s.summaries && s.summaries[(projectKey, e.sessionID)] == e
  }

  /** The main transcript's file is there exactly when the session lists one, with its mtime. */
  lemma MainFile(r: TextRules, c: FileCodec, files: Files, mtimes: Mtimes, m: Contents, projectKey: string, id: string)
    requires Holds(r, c, files, m) && Stamped(c, files, mtimes, m) && Bytes(projectKey) && Bytes(id)
    ensures var s, path := FileState(c, files, mtimes, m), TranscriptPath(SessionKey(projectKey, id, ""));
      && (path in files <==> SessionKey(projectKey, id, "") in s.items)
      && (path in files ==> path in mtimes && s.items[SessionKey(projectKey, id, "")].mtimeMs == mtimes[path])
  {
    var k := SessionKey(projectKey, id, "");
    FileItems(r, c, files, mtimes, m, k);
    if k in m {
      assert FileHolds(r, c, files, m, k);
    } else {
      NotOwned(r, c, files, m, k);
    }
  }

  lemma SummaryFile(r: TextRules, c: FileCodec, files: Files, mtimes: Mtimes, m: Contents, projectKey: string,
                    id: string)
    requires Holds(r, c, files, m) && Stamped(c, files, mtimes, m) && Bytes(projectKey) && Bytes(id)
    ensures var s := FileState(c, files, mtimes, m);
      var read := ReadSummary(c, files, SummaryPath(SessionKey(projectKey, id, "")));
      && (read.Some? <==> (projectKey, id) in s.summaries)
      && (read.Some? ==> s.summaries[(projectKey, id)] == read.value && read.value.sessionID == id)
  {
    var k := SessionKey(projectKey, id, "");
    FileSummaries(r, c, files, mtimes, m, projectKey, id);
    if k in m {
      assert FileHolds(r, c, files, m, k);
    } else {
      NotOwned(r, c, files, m, k);
    }
  }

  lemma ListedSummaries(r: TextRules, c: FileCodec, files: Files, mtimes: Mtimes, m: Contents, projectKey: string)
    requires Holds(r, c, files, m) && Stamped(c, files, mtimes, m)
    ensures var s := FileState(c, files, mtimes, m);
      forall e :: SummarizedAs(s, projectKey, e)
        <==> exists id :: (projectKey, id) in s.summaries && s.summaries[(projectKey, id)] == e
  {
    FileAgrees(r, c, files, mtimes, m);
    OwnIDs(r, FileState(c, files, mtimes, m));
  }

  class FileSessionStore {
    const rules: TextRules
    const codec: FileCodec
    var files: Files
    var mtimes: Mtimes
    /** The entries appended under each key. */
    ghost var stored: Contents

    ghost predicate Valid()
      reads this
    {
      RoundTrips(codec) && Holds(rules, codec, files, stored) && Stamped(codec, files, mtimes, stored)
    }

    /** What the files hold, as the state of an in-memory store. */
    ghost function View(): State
      reads this
    {
      FileState(codec, files, mtimes, stored)
    }

    constructor (r: TextRules, c: FileCodec)
      requires RoundTrips(c)
      ensures Valid() && rules == r && codec == c && files == map[] && mtimes == map[] && stored == map[]
    {
      rules, codec, files, mtimes, stored := r, c, map[], map[], map[];
    }

    /** `mtime` is what the file system reports for the transcript once written. */
    method Append(key: SessionKey, entries: seq<Entry>, mtime: int)
      requires Valid() && ByteKey(key)
      modifies this
      ensures Valid() && stored == Added(old(stored), key, entries)
      ensures files == WriteTo(rules, codec, old(files), key, entries, mtime)
      ensures mtimes == StampTo(old(mtimes), key, entries, mtime)
    {
      ghost var later := WriteTo(rules, codec, files, key, entries, mtime);
      WriteHolds(rules, codec, files, stored, key, entries, mtime);
      WriteStamped(rules, codec, files, mtimes, stored, key, entries, mtime);
      if |entries| == 0 {
        return;
      }
      var buf := EncodeLines(codec.lines, entries);
      var path := TranscriptPath(key);
      NoTemp(stored, key);
      stored := Added(stored, key, entries);
      files, mtimes := files[path := ReadOr(files, path) + buf], mtimes[path := mtime];
      if key.subpath == "" {
        assert TempPath(key) !in files && TempPath(key)[2] != SummaryPath(key)[2];
        DropAbsent(later, TempPath(key));
        WriteSummary(key, entries, mtime);
      }
      assert files == later;
    }

    /** The summary is written beside, over any file left there, and renamed into place. */
    method WriteSummary(key: SessionKey, entries: seq<Entry>, mtime: int)
      requires ByteKey(key)
      modifies this`files
      ensures var prev := ReadSummary(codec, old(files), SummaryPath(key));
        var folded := FoldSummary(rules, prev, key.sessionID, entries);
        files == old(files)[SummaryPath(key) := codec.encSum(folded.(mtimeMs := mtime))] - {TempPath(key)}
    {
      var prev := ReadSummary(codec, files, SummaryPath(key));
      var sum := FoldSessionSummary(rules, prev, key.sessionID, entries);
      var raw := codec.encSum(sum.(mtimeMs := mtime));
      assert TempPath(key)[2] != SummaryPath(key)[2];
      files := files[TempPath(key) := raw];
      files := files[SummaryPath(key) := files[TempPath(key)]] - {TempPath(key)};
    }

    method Load(key: SessionKey) returns (out: Option<seq<Entry>>)
      requires Valid() && ByteKey(key)
      ensures out == Some(StoredAt(stored, key))
    {
      LoadHolds(rules, codec, files, stored, key);
      if TranscriptPath(key) !in files {
        return Some([]);
      }
      out := Read(codec.lines, files[TranscriptPath(key)]);
    }

    method Delete(key: SessionKey)
      requires Valid() && ByteKey(key)
      modifies this
      ensures Valid() && stored == Removed(old(stored), key)
      ensures files == RemoveFrom(old(files), key) && mtimes == RemoveFrom(old(mtimes), key)
    {
      RemoveHolds(rules, codec, files, stored, key);
      RemoveStamped(codec, files, mtimes, stored, key);
      stored := Removed(stored, key);
      if key.subpath != "" {
        files, mtimes := files - {TranscriptPath(key)}, mtimes - {TranscriptPath(key)};
        return;
      }
      files := map p | p in files && !(SessionDir(key) <= p) :: files[p];
      mtimes := map p | p in mtimes && !(SessionDir(key) <= p) :: mtimes[p];
    }

    method SessionIDs(projectKey: string) returns (ids: seq<string>)
      requires Valid() && Bytes(projectKey)
      ensures forall i, j :: 0 <= i < j < |ids| ==> ids[i] != ids[j]
      ensures forall id :: id in ids <==> HasSession(stored, projectKey, id)
      ensures forall id :: id in ids ==> Bytes(id)
    {
      ids := [];
      var names := Names(files, [EncodePart(projectKey)]);
      ghost var all := names;
      while names != {}
        invariant names <= all == Names(files, [EncodePart(projectKey)])
        invariant forall i, j :: 0 <= i < j < |ids| ==> ids[i] != ids[j]
        invariant forall id :: id in ids ==> Bytes(id) && HasSession(stored, projectKey, id)
        invariant forall id :: id in ids <==> Bytes(id) && EncodePart(id) in all - names
        decreases names
      {
        var name :| name in names;
        ghost var own := NameIsSession(rules, codec, files, stored, projectKey, name);
        PartRoundTrip(own);
        var id := DecodePart(name);
        if id.Some? && IsDir(files, [EncodePart(projectKey), name]) {
          forall other | Bytes(other) && EncodePart(other) == name ensures other == own {
            PartInjective(other, own);
          }
          ids := ids + [id.value];
        }
        names := names - {name};
      }
      forall id | HasSession(stored, projectKey, id) ensures id in ids {
        SessionHasName(rules, codec, files, stored, projectKey, id);
      }
    }

    method ListSessions(projectKey: string) returns (out: seq<ListEntry>)
      requires Valid() && Bytes(projectKey)
      ensures IsListing(View(), projectKey, out)
    {
      var ids := SessionIDs(projectKey);
      out := [];
      for i := 0 to |ids|
        invariant forall a, b :: 0 <= a < b < |out| ==> out[a].sessionID != out[b].sessionID
        invariant forall e :: e in out <==> e.sessionID in ids[..i] && ListsAs(View(), projectKey, e)
      {
        assert ids[..i + 1] == ids[..i] + [ids[i]];
        MainFile(rules, codec, files, mtimes, stored, projectKey, ids[i]);
        var path := TranscriptPath(SessionKey(projectKey, ids[i], ""));
        forall a | 0 <= a < |out| ensures out[a].sessionID != ids[i] {
          assert out[a] in out;
        }
        if path in files {
          out := out + [ListEntry(ids[i], mtimes[path])];
        }
      }
      assert ids[..|ids|] == ids;
      forall e | ListsAs(View(), projectKey, e) ensures e.sessionID in ids {
        FileItems(rules, codec, files, mtimes, stored, SessionKey(projectKey, e.sessionID, ""));
        assert HasSession(stored, projectKey, e.sessionID);
      }
    }

    /** A session whose summary is missing, unreadable or another's is left out. */
    method ListSessionSummaries(projectKey: string) returns (out: seq<SummaryEntry>)
      requires Valid() && Bytes(projectKey)
      ensures IsSummaryListing(View(), projectKey, out)
    {
      var ids := SessionIDs(projectKey);
      out := [];
      for i := 0 to |ids|
        invariant forall a, b :: 0 <= a < b < |out| ==> out[a] != out[b]
        invariant forall e :: e in out <==> e.sessionID in ids[..i] && SummarizedAs(View(), projectKey, e)
      {
        assert ids[..i + 1] == ids[..i] + [ids[i]];
        SummaryFile(rules, codec, files, mtimes, stored, projectKey, ids[i]);
        forall a | 0 <= a < |out| ensures out[a].sessionID != ids[i] {
          assert out[a] in out;
        }
        var read := ReadSummary(codec, files, SummaryPath(SessionKey(projectKey, ids[i], "")));
        if read.Some? && read.value.sessionID == ids[i] {
          out := out + [read.value];
        }
      }
      assert ids[..|ids|] == ids;
      ListedSummaries(rules, codec, files, mtimes, stored, projectKey);
      forall e | SummarizedAs(View(), projectKey, e) ensures e.sessionID in ids {
        FileSummaries(rules, codec, files, mtimes, stored, projectKey, e.sessionID);
        assert HasSession(stored, projectKey, e.sessionID);
      }
    }

    method ListSubkeys(key: SessionKey) returns (out: seq<string>)
      requires Valid() && ByteKey(key)
      ensures forall i, j :: 0 <= i < j < |out| ==> Less(out[i], out[j])
      ensures forall sub :: sub in out <==> sub != "" && SessionKey(key.projectKey, key.sessionID, sub) in stored
    {
      var names := Names(files, SubDir(key));
      ghost var all := names;
      var found: seq<string> := [];
      while names != {}
        invariant names <= all == Names(files, SubDir(key))
        invariant forall i, j :: 0 <= i < j < |found| ==> found[i] != found[j]
        invariant forall sub :: sub in found <==> exists name :: name in all - names && SubkeyOf(name) == Some(sub)
        decreases names
      {
        var name :| name in names;
        var sub := SubkeyOf(name);
        if sub.Some? {
          forall other | other in all && SubkeyOf(other) == sub ensures other == name {
            SameName(rules, codec, files, stored, key, name, other);
          }
          found := found + [sub.value];
        }
        names := names - {name};
      }
      forall sub ensures sub in found <==> sub != "" && SessionKey(key.projectKey, key.sessionID, sub) in stored {
        SubkeysHold(rules, codec, files, stored, key, sub);
      }
      out := SortStrings(found);
    }
  }

  lemma SameName(r: TextRules, c: FileCodec, files: Files, m: Contents, key: SessionKey, a: string, b: string)
    requires Holds(r, c, files, m) && ByteKey(key) && a in Names(files, SubDir(key)) && b in Names(files, SubDir(key))
    requires SubkeyOf(a) == SubkeyOf(b)
    ensures a == b
  {
    var x := NameIsSubkey(r, c, files, m, key, a);
    var y := NameIsSubkey(r, c, files, m, key, b);
    SubkeyRoundTrip(x);
    SubkeyRoundTrip(y);
  }
}
