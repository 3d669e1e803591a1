/** A fork keeps the conversation. */
module ForkProofs {
  import opened Json
  import opened Seqs
  import opened Conversation
  import opened Summary
  import opened Fork

  // The parent walk of a fork has no cycle guard: when does it end?

  /** The walk from pid ends within n steps over progress entries. */
  predicate EndsWithin(m: map<string, Entry>, pid: string, n: nat)
    decreases n
  {
    pid == "" || pid !in m || NotProgress(m[pid]) || (n > 0 && EndsWithin(m, ParentId(m[pid]), n - 1))
  }

  /** The walk from pid ends after exactly n steps. */
  predicate EndsAfter(m: map<string, Entry>, pid: string, n: nat)
    decreases n
  {
    if pid == "" || pid !in m || NotProgress(m[pid]) then n == 0
    else n > 0 && EndsAfter(m, ParentId(m[pid]), n - 1)
  }

  lemma {:induction false} EndsWithinAfter(m: map<string, Entry>, pid: string, n: nat) returns (k: nat)
    requires EndsWithin(m, pid, n)
    ensures k <= n && EndsAfter(m, pid, k)
    decreases n
  {
    if pid == "" || pid !in m || NotProgress(m[pid]) {
      k := 0;
    } else {
      k := EndsWithinAfter(m, ParentId(m[pid]), n - 1);
      k := k + 1;
    }
  }

  lemma {:induction false} EndsAfterOnce(m: map<string, Entry>, pid: string, n: nat, k: nat)
    requires EndsAfter(m, pid, n) && EndsAfter(m, pid, k)
    ensures n == k
    decreases n
  {
    if n > 0 && k > 0 {
      EndsAfterOnce(m, ParentId(m[pid]), n - 1, k - 1);
    }
  }

  ghost predicate EndsLater(m: map<string, Entry>, pid: string, n: nat) {
    exists k :: k > n && EndsAfter(m, pid, k)
  }

  lemma {:induction false} EndingIsGrounded(m: map<string, Entry>, pid: string, seen: set<string>, n: nat)
    requires EndsAfter(m, pid, n)
    requires forall u :: u in seen ==> EndsLater(m, u, n)
    ensures Grounded(m, pid, seen)
    decreases n
  {
    if n > 0 {
      if pid in seen {
        var k :| k > n && EndsAfter(m, pid, k);
        EndsAfterOnce(m, pid, n, k);
      }
      forall u | u in seen + {pid} ensures EndsLater(m, u, n - 1) {
        if u == pid {
          assert EndsAfter(m, u, n);
        } else {
          assert EndsLater(m, u, n);
        }
      }
      EndingIsGrounded(m, ParentId(m[pid]), seen + {pid}, n - 1);
    }
  }

  lemma {:induction false} GroundedEnds(m: map<string, Entry>, pid: string, seen: set<string>) returns (n: nat)
    requires Grounded(m, pid, seen)
    ensures EndsWithin(m, pid, n)
    decreases m.Keys - seen
  {
    if pid == "" || pid !in m || NotProgress(m[pid]) {
      n := 0;
    } else {
      n := GroundedEnds(m, ParentId(m[pid]), seen + {pid});
      n := n + 1;
    }
  }

  ghost predicate WalkEnds(m: map<string, Entry>, pid: string) {
    exists n: nat :: EndsWithin(m, pid, n)
  }

  /** The unguarded walk ends exactly when it does not come back to a progress entry it has passed. */
  lemma WalkEndsIff(m: map<string, Entry>, pid: string)
    ensures WalkEnds(m, pid) <==> Grounded(m, pid, {})
  {
    if WalkEnds(m, pid) {
      var n: nat :| EndsWithin(m, pid, n);
      var k := EndsWithinAfter(m, pid, n);
      EndingIsGrounded(m, pid, {}, k);
    }
    if Grounded(m, pid, {}) {
      var n := GroundedEnds(m, pid, {});
      assert EndsWithin(m, pid, n);
    }
  }

  /** A fork of a loaded transcript comes back exactly when the walk from every entry it copies ends. */
  lemma {:induction false} ForkHaltsIff(loaded: seq<Entry>, upTo: string)
    ensures ForkHalts(loaded, upTo) <==>
      (Selected(loaded, upTo).Some? ==>
         var t := Selected(loaded, upTo).value;
         forall i :: 0 <= i < |t| && NotProgress(t[i]) ==> WalkEnds(ById(t), ParentId(t[i])))
  {
    if Selected(loaded, upTo).Some? {
      var t := Selected(loaded, upTo).value;
      forall i | 0 <= i < |t| && NotProgress(t[i])
        ensures WalkEnds(ById(t), ParentId(t[i])) <==> Grounded(ById(t), ParentId(t[i]), {})
      {
        WalkEndsIff(ById(t), ParentId(t[i]));
      }
    }
  }

  const STUCK: seq<Entry> := [
    map[Type := Str("progress"), Uuid := Str("p"), ParentUuid := Str("p")],
    map[Type := Str("user"), Uuid := Str("u"), ParentUuid := Str("p")]]

  lemma StuckIsSelected()
    ensures Selected(STUCK, "") == Some(STUCK)
  {
    KeepAll(STUCK, Copied);
  }

  lemma StuckById()
    ensures "p" in ById(STUCK) && ById(STUCK)["p"] == STUCK[0]
  {
    assert STUCK[..1] == [STUCK[0]] && STUCK[..1][..0] == [];
  }

  /** A progress entry that is its own parent keeps a fork of the transcript it is loaded with from ever
      returning. */
  lemma ForkCanHang()
    ensures !ForkHalts(STUCK, "") && !WalkEnds(ById(STUCK), ParentId(STUCK[1]))
  {
    var m, p := ById(STUCK), STUCK[0];
    StuckIsSelected();
    StuckById();
    assert !NotProgress(p) && ParentId(p) == "p" && NotProgress(STUCK[1]) && ParentId(STUCK[1]) == "p";
    assert !Grounded(m, "p", {"p"});
    assert !Grounded(m, "p", {});
    WalkEndsIff(m, "p");
  }

  // Where a copied entry lands.

  function Pos(t: seq<Entry>, i: nat): nat
    requires i <= |t|
  {
    |Keep(t[..i], NotProgress)|
  }

  lemma PosStep(t: seq<Entry>, i: nat)
    requires i < |t|
    ensures Pos(t, i + 1) == Pos(t, i) + if NotProgress(t[i]) then 1 else 0
  {
    KeepStep(t, NotProgress, i);
  }

  lemma PosAt(t: seq<Entry>, i: nat)
    requires i < |t| && NotProgress(t[i])
    ensures Pos(t, i) < |Keep(t, NotProgress)| && Keep(t, NotProgress)[Pos(t, i)] == t[i]
  {
    assert t == t[..i + 1] + t[i + 1..];
    KeepConcat(t[..i + 1], t[i + 1..], NotProgress);
    KeepStep(t, NotProgress, i);
  }

  lemma {:induction false} PosMonotonic(t: seq<Entry>, i: nat, j: nat)
    requires i < j <= |t|
    ensures Pos(t, i) <= Pos(t, j) && (NotProgress(t[i]) ==> Pos(t, i) < Pos(t, j))
    decreases j
  {
    PosStep(t, j - 1);
    if i < j - 1 {
      PosMonotonic(t, i, j - 1);
    }
  }

  lemma {:induction false} PosOnto(t: seq<Entry>, n: nat, k: nat) returns (i: nat)
    requires n <= |t| && k < Pos(t, n)
    ensures i < n && NotProgress(t[i]) && Pos(t, i) == k
    decreases n
  {
    PosStep(t, n - 1);
    if NotProgress(t[n - 1]) && Pos(t, n - 1) == k {
      i := n - 1;
    } else {
      i := PosOnto(t, n - 1, k);
    }
  }

  // The nearest copied ancestor, by position.

  ghost function Anchor(t: seq<Entry>, i: nat): (r: Option<nat>)
    requires Orderly(t) && i < |t|
    ensures r.Some? ==> r.value < i && NotProgress(t[r.value])
  {
    match ParentAt(t, i)
    case None => None
    case Some(p) => if NotProgress(t[p]) then Some(p) else Anchor(t, p)
  }

  lemma FreshBelow(t: seq<Entry>, p: nat, seen: set<string>)
    requires Orderly(t) && p < |t| && forall k :: 0 <= k <= p ==> Id(t[k]) !in seen
    ensures forall k :: 0 <= k < p ==> Id(t[k]) !in seen + {Id(t[p])}
  {
    EarlierIds(t, p);
  }

  lemma {:induction false} KeptIsAnchor(t: seq<Entry>, i: nat, seen: set<string>)
    requires Orderly(t) && i < |t| && forall k :: 0 <= k < i ==> Id(t[k]) !in seen
    ensures Grounded(ById(t), ParentId(t[i]), seen)
    ensures Kept(ById(t), ParentId(t[i]), seen) == match Anchor(t, i) case None => None case Some(j) => Some(Id(t[j]))
    decreases i
  {
    ParentIs(t, i);
    match ParentAt(t, i) {
      case None =>
      case Some(p) =>
        if !NotProgress(t[p]) {
          FreshBelow(t, p, seen);
          KeptIsAnchor(t, p, seen + {Id(t[p])});
        }
    }
  }

  /** A transcript whose links go back to earlier entries can always be forked. */
  lemma {:induction false} OrderlyGrounded(t: seq<Entry>)
    requires Orderly(t)
    ensures AllGrounded(t)
  {
    forall i | 0 <= i < |t| ensures Grounded(ById(t), ParentId(t[i]), {}) {
      KeptIsAnchor(t, i, {});
    }
  }

  lemma {:induction false} RenamingAt(t: seq<Entry>, newID: nat -> string)
    ensures forall u :: u in Renaming(t, newID) ==> u in Positions(t) && Renaming(t, newID)[u] == newID(Positions(t)[u])
  {
    if t != [] {
      RenamingAt(t[..|t| - 1], newID);
    }
  }

  lemma DistinctPositions(s: seq<Entry>)
    requires forall i, j :: 0 <= i < j < |s| ==> Id(s[i]) != Id(s[j])
    ensures forall i :: 0 <= i < |s| ==> Positions(s)[Id(s[i])] == i
  {
    var index := Positions(s);
    forall i | 0 <= i < |s| ensures index[Id(s[i])] == i {
      assert Id(s[index[Id(s[i])]]) == Id(s[i]);
    }
  }

  // What the fork of one entry keeps.

  const REWRITTEN := {Uuid, ParentUuid, LogicalParentUuid, SessionId, Timestamp, IsSidechain, ForkedFrom,
                      TeamName, AgentName, Slug, SourceToolAssistantUuid}

  /** f is o under its new uuid, with every field the fork does not rewrite unchanged. */
  ghost predicate Copies(f: Entry, o: Entry, ids: map<string, string>) {
    Id(o) in ids && At(f, Uuid) == Str(ids[Id(o)]) && forall k :: k !in REWRITTEN ==> At(f, k) == At(o, k)
  }

  lemma ForkEntryCopies(o: Entry, ids: map<string, string>, parent: Json, forkID: string, sessionID: string, ts: Json)
    requires Id(o) in ids
    ensures var f := ForkEntry(o, ids, parent, forkID, sessionID, ts);
      && Copies(f, o, ids) && At(f, ParentUuid) == parent && At(f, SessionId) == Str(forkID)
      && At(f, IsSidechain) == Bool(false) && StrAt(f, TeamName) == ""
  {
  }

  lemma CopyReadsSame(f: Entry, o: Entry, ids: map<string, string>)
    requires Copies(f, o, ids)
    ensures At(f, Type) == At(o, Type) && At(f, IsMeta) == At(o, IsMeta) && At(f, Message) == At(o, Message)
    ensures IsTurn(f) == IsTurn(o) && (InTranscript(o) ==> InTranscript(f))
  {
    assert StrAt(f, Type) == StrAt(o, Type);
  }

  lemma TurnIsKept(e: Entry)
    ensures IsTurn(e) ==> NotProgress(e)
  {
  }

  /** Which new uuid a string is. */
  ghost function IndexOf(newID: nat -> string): string -> nat {
    s => if i: nat :| newID(i) == s then i else 0
  }

  lemma IndexOfNew(newID: nat -> string)
    requires forall i, j :: i < j ==> newID(i) != newID(j)
    ensures forall i :: IndexOf(newID)(newID(i)) == i
  {
  }

  /** One fork: what is copied, and under which ids; `index` undoes `newID`. */
  datatype Fk = Fk(t: seq<Entry>, newID: nat -> string, index: string -> nat, forkID: string, sessionID: string,
      now: string)

  ghost predicate Good(a: Fk) {
    Orderly(a.t) && forall i :: a.newID(i) != "" && a.index(a.newID(i)) == i
  }

  /** e is what the fork writes for the i-th entry. */
  ghost predicate CopyAt(a: Fk, e: Entry, i: nat)
    requires Good(a) && i < |a.t|
  {
    && Copies(e, a.t[i], Renaming(a.t, a.newID)) && Id(e) == a.newID(i)
    && ParentId(e) == (match Anchor(a.t, i) case None => "" case Some(j) => a.newID(j))
    && At(e, IsSidechain) == Bool(false) && StrAt(e, TeamName) == ""
  }

  ghost predicate PlacedAt(a: Fk, f: seq<Entry>, i: nat)
    requires Good(a) && i < |a.t|
  {
    Pos(a.t, i) < |f| && CopyAt(a, f[Pos(a.t, i)], i)
  }

  /** f holds the copies of the entries that are not progress, each at its place. */
  ghost predicate IsFork(a: Fk, f: seq<Entry>) {
    && Good(a) && |f| == Pos(a.t, |a.t|)
    && forall i {:trigger PlacedAt(a, f, i)} :: 0 <= i < |a.t| && NotProgress(a.t[i]) ==> PlacedAt(a, f, i)
  }

  lemma PosEnd(t: seq<Entry>)
    ensures Pos(t, |t|) == |Keep(t, NotProgress)|
  {
    assert t[..|t|] == t;
  }

  lemma {:induction false} ForkEntriesAreFork(a: Fk)
    requires Good(a) && AllGrounded(a.t)
    ensures IsFork(a, ForkEntries(a.t, Renaming(a.t, a.newID), a.forkID, a.sessionID, a.now))
  {
    var f := ForkEntries(a.t, Renaming(a.t, a.newID), a.forkID, a.sessionID, a.now);
    forall i | 0 <= i < |a.t| && NotProgress(a.t[i]) ensures PlacedAt(a, f, i) {
      ForkEntryAt(a, i);
    }
    PosEnd(a.t);
  }

  lemma {:induction false} ForkEntryAt(a: Fk, i: nat)
    requires Good(a) && AllGrounded(a.t) && i < |a.t| && NotProgress(a.t[i])
    ensures var f := ForkEntries(a.t, Renaming(a.t, a.newID), a.forkID, a.sessionID, a.now);
      PlacedAt(a, f, i)
  {
    var ids := Renaming(a.t, a.newID);
    var k := Pos(a.t, i);
    PosAt(a.t, i);
    ForkEntriesAt(a.t, ids, a.forkID, a.sessionID, a.now, k);
    RenamingAt(a.t, a.newID);
    KeptIsAnchor(a.t, i, {});
    var parent := Link(ids, Kept(ById(a.t), ParentId(a.t[i]), {}));
    ForkEntryCopies(a.t[i], ids, parent, a.forkID, a.sessionID,
      Stamp(a.t[i], k == |Keep(a.t, NotProgress)| - 1, a.now));
  }

  lemma {:induction false} ForkedAt(a: Fk, f: seq<Entry>, i: nat)
    requires IsFork(a, f) && i < |a.t| && NotProgress(a.t[i])
    ensures var k := Pos(a.t, i);
      && k < |f| && Copies(f[k], a.t[i], Renaming(a.t, a.newID)) && Id(f[k]) == a.newID(i)
      && ParentId(f[k]) == (match Anchor(a.t, i) case None => "" case Some(j) => a.newID(j))
      && IsTurn(f[k]) == IsTurn(a.t[i]) && (InTranscript(a.t[i]) ==> InTranscript(f[k]))
         && (OnMainChain(a.t[i]) ==> OnMainChain(f[k]))
  {
    assert PlacedAt(a, f, i);
    CopyReadsSame(f[Pos(a.t, i)], a.t[i], Renaming(a.t, a.newID));
  }

  lemma Onto(a: Fk, f: seq<Entry>, k: nat) returns (i: nat)
    requires IsFork(a, f) && k < |f|
    ensures i < |a.t| && NotProgress(a.t[i]) && Pos(a.t, i) == k
  {
    i := PosOnto(a.t, |a.t|, k);
  }

  lemma {:induction false} ForkDistinct(a: Fk, f: seq<Entry>)
    requires IsFork(a, f)
    ensures forall i :: 0 <= i < |f| ==> Positions(f)[Id(f[i])] == i
  {
    forall i, j | 0 <= i < j < |f| ensures Id(f[i]) != Id(f[j]) {
      var x := Onto(a, f, i);
      var y := Onto(a, f, j);
      ForkedAt(a, f, x);
      ForkedAt(a, f, y);
      assert a.index(a.newID(x)) == x && a.index(a.newID(y)) == y;
    }
    DistinctPositions(f);
  }

  /** Links between copied entries skip what is not copied. */
  lemma ForkParent(a: Fk, f: seq<Entry>, i: nat)
    requires IsFork(a, f) && i < |a.t| && NotProgress(a.t[i])
    ensures Pos(a.t, i) < |f|
    ensures ParentAt(f, Pos(a.t, i)) == match Anchor(a.t, i) case None => None case Some(j) => Some(Pos(a.t, j))
  {
    ForkedAt(a, f, i);
    ForkDistinct(a, f);
    match Anchor(a.t, i) {
      case None =>
      case Some(j) => ForkedAt(a, f, j);
    }
  }

  lemma ForkOrderly(a: Fk, f: seq<Entry>)
    requires IsFork(a, f)
    ensures Orderly(f)
  {
    ForkDistinct(a, f);
    forall k | 0 <= k < |f| && ParentAt(f, k).Some? ensures ParentAt(f, k).value < k {
      var i := Onto(a, f, k);
      ForkParent(a, f, i);
      PosMonotonic(a.t, Anchor(a.t, i).value, i);
    }
  }

  /** The positions of the copies of the entries at idx that are copied. */
  ghost function PosAll(t: seq<Entry>, idx: seq<nat>): (r: seq<nat>)
    requires forall k :: 0 <= k < |idx| ==> idx[k] < |t|
    ensures forall k :: 0 <= k < |r| ==> r[k] < Pos(t, |t|)
  {
    if idx == [] then []
    else
      PosMonotonic(t, idx[0], |t|);
      (if NotProgress(t[idx[0]]) then [Pos(t, idx[0])] else []) + PosAll(t, idx[1..])
  }

  /** From the copy of an anchor on up. */
  ghost function UpFrom(a: Fk, f: seq<Entry>, anchor: Option<nat>): seq<nat>
    requires Orderly(f) && (anchor.Some? ==> anchor.value < |a.t|)
  {
    match anchor
    case None => []
    case Some(j) => if Pos(a.t, j) < |f| then Ancestry(f, Pos(a.t, j)) else []
  }

  ghost function CopyAncestry(a: Fk, f: seq<Entry>, i: nat): seq<nat>
    requires Orderly(a.t) && Orderly(f) && i < |a.t|
  {
    UpFrom(a, f, if NotProgress(a.t[i]) then Some(i) else Anchor(a.t, i))
  }

  ghost function PosOf(t: seq<Entry>, i: nat): seq<nat>
    requires i < |t|
  {
    if NotProgress(t[i]) then [Pos(t, i)] else []
  }

  /** Both ways up take the same step. */
  lemma PosAllStep(t: seq<Entry>, i: nat)
    requires Orderly(t) && i < |t|
    ensures PosAll(t, Ancestry(t, i))
      == PosOf(t, i) + match ParentAt(t, i) case None => [] case Some(p) => PosAll(t, Ancestry(t, p))
  {
    var anc := Ancestry(t, i);
    match ParentAt(t, i) {
      case None => assert anc == [i] && anc[1..] == [];
      case Some(p) => assert anc[1..] == Ancestry(t, p);
    }
  }

  lemma AnchorStep(a: Fk, f: seq<Entry>, i: nat)
    requires Orderly(a.t) && Orderly(f) && i < |a.t|
    ensures UpFrom(a, f, Anchor(a.t, i))
      == match ParentAt(a.t, i) case None => [] case Some(p) => CopyAncestry(a, f, p)
  {
  }

  lemma CopyStep(a: Fk, f: seq<Entry>, i: nat)
    requires IsFork(a, f) && Orderly(f) && i < |a.t| && NotProgress(a.t[i])
    ensures UpFrom(a, f, Some(i)) == [Pos(a.t, i)] + UpFrom(a, f, Anchor(a.t, i))
  {
    ForkParent(a, f, i);
    if Anchor(a.t, i).Some? {
      ForkParent(a, f, Anchor(a.t, i).value);
    }
  }

  lemma CopyAncestryStep(a: Fk, f: seq<Entry>, i: nat)
    requires IsFork(a, f) && Orderly(f) && i < |a.t|
    ensures CopyAncestry(a, f, i)
      == PosOf(a.t, i) + match ParentAt(a.t, i) case None => [] case Some(p) => CopyAncestry(a, f, p)
  {
    AnchorStep(a, f, i);
    if NotProgress(a.t[i]) {
      CopyStep(a, f, i);
    }
  }

  /** The ancestors of a copy are the copies of the ancestors. */
  lemma {:induction false} ForkAncestry(a: Fk, f: seq<Entry>, i: nat)
    requires IsFork(a, f) && Orderly(f) && i < |a.t|
    ensures PosAll(a.t, Ancestry(a.t, i)) == CopyAncestry(a, f, i)
    decreases i
  {
    PosAllStep(a.t, i);
    CopyAncestryStep(a, f, i);
    if ParentAt(a.t, i).Some? {
      ForkAncestry(a, f, ParentAt(a.t, i).value);
    }
  }

  lemma PosLater(t: seq<Entry>, l: nat, i: nat)
    requires l < |t| && i < |t| && Pos(t, l) < Pos(t, i)
    ensures l < i
  {
    if i < l {
      PosMonotonic(t, i, l);
    }
  }

  lemma LaterCopy(a: Fk, f: seq<Entry>, l: nat, k: nat)
    requires IsFork(a, f) && l < |a.t| && (forall j :: l < j < |a.t| ==> !IsTurn(a.t[j])) && Pos(a.t, l) < k < |f|
    ensures !IsTurn(f[k])
  {
    var i := Onto(a, f, k);
    PosLater(a.t, l, i);
    ForkedAt(a, f, i);
  }

  lemma {:induction false} LastTurnIs(s: seq<Entry>, l: nat)
    requires l < |s| && IsTurn(s[l]) && forall k :: l < k < |s| ==> !IsTurn(s[k])
    ensures LastTurn(s) == Some(l)
  {
  }

  lemma {:induction false} ForkLastTurn(a: Fk, f: seq<Entry>)
    requires IsFork(a, f)
    ensures match LastTurn(a.t) case None => LastTurn(f).None?
      case Some(l) => LastTurn(f) == Some(Pos(a.t, l)) && NotProgress(a.t[l])
  {
    match LastTurn(a.t) {
      case None =>
        if LastTurn(f).Some? {
          var i := Onto(a, f, LastTurn(f).value);
          ForkedAt(a, f, i);
        }
      case Some(l) =>
        TurnIsKept(a.t[l]);
        ForkedAt(a, f, l);
        forall k | Pos(a.t, l) < k < |f| ensures !IsTurn(f[k]) {
          LaterCopy(a, f, l, k);
        }
        LastTurnIs(f, Pos(a.t, l));
    }
  }

  lemma ForkAllMain(a: Fk, f: seq<Entry>)
    requires IsFork(a, f) && AllMain(a.t)
    ensures AllMain(f)
  {
    forall k | 0 <= k < |f| && IsTurn(f[k]) ensures OnMainChain(f[k]) {
      var i := Onto(a, f, k);
      ForkedAt(a, f, i);
    }
  }

  lemma ForkInTranscript(a: Fk, f: seq<Entry>)
    requires IsFork(a, f) && forall i :: 0 <= i < |a.t| ==> InTranscript(a.t[i])
    ensures forall k :: 0 <= k < |f| ==> InTranscript(f[k])
  {
    forall k | 0 <= k < |f| ensures InTranscript(f[k]) {
      var i := Onto(a, f, k);
      ForkedAt(a, f, i);
    }
  }

  ghost predicate AllCopies(f: seq<Entry>, o: seq<Entry>, ids: map<string, string>) {
    |f| == |o| && forall i :: 0 <= i < |f| ==> Copies(f[i], o[i], ids)
  }

  lemma KeepHead(e: Entry, rest: seq<Entry>)
    ensures Keep([e] + rest, NotProgress) == (if NotProgress(e) then [e] else []) + Keep(rest, NotProgress)
  {
    KeepConcat([e], rest, NotProgress);
    assert Keep([e], NotProgress) == if NotProgress(e) then [e] else [];
  }

  ghost predicate CopyPlaced(t: seq<Entry>, f: seq<Entry>, ids: map<string, string>, i: nat)
    requires i < |t|
  {
    Pos(t, i) < |f| && Copies(f[Pos(t, i)], t[i], ids)
  }

  ghost predicate CopiesPlaced(t: seq<Entry>, f: seq<Entry>, ids: map<string, string>) {
    && |f| == Pos(t, |t|)
    && forall i {:trigger CopyPlaced(t, f, ids, i)} :: 0 <= i < |t| && NotProgress(t[i]) ==> CopyPlaced(t, f, ids, i)
  }

  lemma PosAllHead(t: seq<Entry>, i: nat, rest: seq<nat>)
    requires i < |t| && forall k :: 0 <= k < |rest| ==> rest[k] < |t|
    ensures PosAll(t, [i] + rest) == (if NotProgress(t[i]) then [Pos(t, i)] else []) + PosAll(t, rest)
  {
    assert ([i] + rest)[1..] == rest;
  }

  lemma {:induction false} PickStepCopies(t: seq<Entry>, f: seq<Entry>, ids: map<string, string>, i: nat,
                                          rest: seq<nat>)
    requires CopiesPlaced(t, f, ids) && i < |t| && forall k :: 0 <= k < |rest| ==> rest[k] < |t|
    requires AllCopies(Pick(f, PosAll(t, rest)), Keep(Pick(t, rest), NotProgress), ids)
    ensures AllCopies(Pick(f, PosAll(t, [i] + rest)), Keep(Pick(t, [i] + rest), NotProgress), ids)
  {
    PickStep(t, i, rest);
    KeepHead(t[i], Pick(t, rest));
    PosAllHead(t, i, rest);
    if NotProgress(t[i]) {
      assert CopyPlaced(t, f, ids, i);
      PickStep(f, Pos(t, i), PosAll(t, rest));
      AllCopiesCons(f[Pos(t, i)], t[i], Pick(f, PosAll(t, rest)), Keep(Pick(t, rest), NotProgress), ids);
    }
  }

  lemma {:induction false} PickCopies(t: seq<Entry>, f: seq<Entry>, ids: map<string, string>, idx: seq<nat>)
    requires CopiesPlaced(t, f, ids) && forall k :: 0 <= k < |idx| ==> idx[k] < |t|
    ensures AllCopies(Pick(f, PosAll(t, idx)), Keep(Pick(t, idx), NotProgress), ids)
  {
    if idx != [] {
      PickCopies(t, f, ids, idx[1..]);
      assert idx == [idx[0]] + idx[1..];
      PickStepCopies(t, f, ids, idx[0], idx[1..]);
    }
  }

  lemma {:induction false} ForkPlaced(a: Fk, f: seq<Entry>)
    requires IsFork(a, f)
    ensures CopiesPlaced(a.t, f, Renaming(a.t, a.newID))
  {
    forall i | 0 <= i < |a.t| && NotProgress(a.t[i]) ensures CopyPlaced(a.t, f, Renaming(a.t, a.newID), i) {
      assert PlacedAt(a, f, i);
    }
  }

  lemma AllCopiesCons(x: Entry, y: Entry, f: seq<Entry>, o: seq<Entry>, ids: map<string, string>)
    requires Copies(x, y, ids) && AllCopies(f, o, ids)
    ensures AllCopies([x] + f, [y] + o, ids)
  {
  }

  lemma AllCopiesReversed(f: seq<Entry>, o: seq<Entry>, ids: map<string, string>)
    requires AllCopies(f, o, ids)
    ensures AllCopies(Reversed(f), Reversed(o), ids)
  {
  }

  /** The chain of the copies is the copy of the chain without its progress entries. */
  lemma {:induction false} ChainOfCopies(a: Fk, f: seq<Entry>)
    requires IsFork(a, f) && AllMain(a.t)
    ensures AllCopies(ChainOf(f), Keep(ChainOf(a.t), NotProgress), Renaming(a.t, a.newID))
  {
    ForkOrderly(a, f);
    ForkAllMain(a, f);
    ForkLastTurn(a, f);
    LeafIsLastTurn(a.t);
    LeafIsLastTurn(f);
    if LastTurn(a.t).Some? {
      ChainFromLast(a, f, LastTurn(a.t).value);
    }
  }

  lemma {:induction false} ChainFromLast(a: Fk, f: seq<Entry>, l: nat)
    requires IsFork(a, f) && Orderly(f) && l < |a.t| && NotProgress(a.t[l]) && Pos(a.t, l) < |f|
    ensures AllCopies(Reversed(Walk(ById(f), f[Pos(a.t, l)], {})),
      Keep(Reversed(Walk(ById(a.t), a.t[l], {})), NotProgress), Renaming(a.t, a.newID))
  {
    WalkIsAncestry(a.t, l, {});
    WalkIsAncestry(f, Pos(a.t, l), {});
    ForkAncestry(a, f, l);
    var anc := Ancestry(a.t, l);
    ForkPlaced(a, f);
    PickCopies(a.t, f, Renaming(a.t, a.newID), anc);
    AllCopiesReversed(Pick(f, Ancestry(f, Pos(a.t, l))), Keep(Pick(a.t, anc), NotProgress), Renaming(a.t, a.newID));
    KeepReversed(Pick(a.t, anc), NotProgress);
  }

  lemma ExtrasNotTranscript(forkID: string, replacements: seq<Json>, title: string, w: World, n: nat)
    ensures forall i :: 0 <= i < |Extras(forkID, replacements, title, w, n)| ==>
      !InTranscript(Extras(forkID, replacements, title, w, n)[i])
  {
  }

  lemma {:induction false} RenamingInjective(t: seq<Entry>, newID: nat -> string)
    requires Orderly(t) && forall i, j :: i < j ==> newID(i) != newID(j)
    ensures forall x, y :: x in t && y in t && Renaming(t, newID)[Id(x)] == Renaming(t, newID)[Id(y)] ==> Id(x) == Id(y)
  {
    RenamingAt(t, newID);
    var ids, index := Renaming(t, newID), Positions(t);
    forall x, y | x in t && y in t && ids[Id(x)] == ids[Id(y)] ensures Id(x) == Id(y) {
      var i, j := index[Id(x)], index[Id(y)];
      assert newID(i) == newID(j);
      assert i == j;
    }
  }

  lemma SelectedInTranscript(loaded: seq<Entry>, upTo: string)
    requires Selected(loaded, upTo).Some?
    ensures var t := Selected(loaded, upTo).value; forall i :: 0 <= i < |t| ==> InTranscript(t[i])
  {
    var t := Selected(loaded, upTo).value;
    KeepIn(loaded, Copied);
    forall i | 0 <= i < |t| ensures InTranscript(t[i]) {
      assert t[i] == Keep(loaded, Copied)[i];
      assert Keep(loaded, Copied)[i] in Keep(loaded, Copied);
    }
  }

  lemma TranscriptOfFork(a: Fk, f: seq<Entry>, replacements: seq<Json>, title: string, w: World, n: nat)
    requires IsFork(a, f) && (forall i :: 0 <= i < |a.t| ==> InTranscript(a.t[i]))
    ensures Transcript(f + Extras(a.forkID, replacements, title, w, n)) == f
  {
    var extras := Extras(a.forkID, replacements, title, w, n);
    ForkInTranscript(a, f);
    ExtrasNotTranscript(a.forkID, replacements, title, w, n);
    KeepConcat(f, extras, InTranscript);
    KeepAll(f, InTranscript);
    KeepNone(extras, InTranscript);
  }

  /** Forking preserves the conversation: the chain a reader finds in the fork, whole or cut, is the
      chain of the (cut) source without its progress entries, entry by entry under an injective
      renaming, with every field the fork does not rewrite (type and message among them) unchanged. */
  lemma {:induction false} ForkKeepsConversation(r: TextRules, w: World, sessionID: string, opts: ForkOptions,
                                                 loaded: seq<Entry>)
    requires FreshIDs(w) && ForkHalts(loaded, opts.upToMessageID)
    requires ForkOf(r, w, sessionID, opts, loaded).Forked?
    requires var t := Selected(loaded, opts.upToMessageID).value; Orderly(t) && AllMain(t)
    ensures var t := Selected(loaded, opts.upToMessageID).value;
      var ids := Renaming(t, w.newID);
      && AllCopies(Chain(ForkOf(r, w, sessionID, opts, loaded).entries), Keep(ChainOf(t), NotProgress), ids)
      && forall x, y :: x in t && y in t && ids[Id(x)] == ids[Id(y)] ==> Id(x) == Id(y)
  {
    var t := Selected(loaded, opts.upToMessageID).value;
    IndexOfNew(w.newID);
    var a := Fk(t, w.newID, IndexOf(w.newID), w.newID(|t|), sessionID, w.now);
    var f := ForkEntries(t, Renaming(t, w.newID), a.forkID, sessionID, w.now);
    SelectedInTranscript(loaded, opts.upToMessageID);
    ForkEntriesAreFork(a);
    TranscriptOfFork(a, f, ReplacementsIn(loaded, sessionID), TitleFor(r, w, opts.title, sessionID, loaded), w,
                     |t| + 1);
    ChainOfCopies(a, f);
    RenamingInjective(t, w.newID);
  }

  // What a reader of the fork sees.

  lemma {:induction false} KeepAligned(f: seq<Entry>, o: seq<Entry>, ids: map<string, string>)
    requires AllCopies(f, o, ids) && forall i :: 0 <= i < |f| ==> Visible(f[i]) == Visible(o[i])
    ensures AllCopies(Keep(f, Visible), Keep(o, Visible), ids)
  {
    if f != [] {
      KeepAligned(f[..|f| - 1], o[..|o| - 1], ids);
    }
  }

  lemma {:induction false} VisibleIsKept(c: seq<Entry>)
    ensures Keep(Keep(c, NotProgress), Visible) == Keep(c, Visible)
  {
    if c != [] {
      var front, last := c[..|c| - 1], c[|c| - 1];
      VisibleIsKept(front);
      TurnIsKept(last);
      var one := if NotProgress(last) then [last] else [];
      KeepConcat(Keep(front, NotProgress), one, Visible);
      assert Keep(one, Visible) == if Visible(last) then [last] else [];
    }
  }

  lemma {:induction false} TurnsAreVisible(entries: seq<Entry>)
    requires AllMain(entries)
    ensures forall i :: 0 <= i < |ChainOf(entries)| ==> Visible(ChainOf(entries)[i]) == IsTurn(ChainOf(entries)[i])
  {
    ChainWithin(entries);
    var c := ChainOf(entries);
    forall i | 0 <= i < |c| ensures Visible(c[i]) == IsTurn(c[i]) {
      assert c[i] in c;
      var k :| 0 <= k < |entries| && entries[k] == c[i];
    }
  }

  lemma {:induction false} VisibleCopies(a: Fk, f: seq<Entry>)
    requires IsFork(a, f) && AllMain(a.t)
    ensures AllCopies(Keep(ChainOf(f), Visible), Keep(ChainOf(a.t), Visible), Renaming(a.t, a.newID))
  {
    var ids := Renaming(a.t, a.newID);
    ChainOfCopies(a, f);
    ForkAllMain(a, f);
    TurnsAreVisible(f);
    TurnsAreVisible(a.t);
    var x, y := ChainOf(f), Keep(ChainOf(a.t), NotProgress);
    KeepIn(ChainOf(a.t), NotProgress);
    forall i | 0 <= i < |x| ensures Visible(x[i]) == Visible(y[i]) {
      CopyReadsSame(x[i], y[i], ids);
      assert y[i] in y;
    }
    KeepAligned(x, y, ids);
    VisibleIsKept(ChainOf(a.t));
  }

  /** Any page of messages read from the fork is that page of the source's messages, under new uuids. */
  lemma {:induction false} ForkReadsSame(a: Fk, f: seq<Entry>, limit: int, offset: int)
    requires IsFork(a, f) && AllMain(a.t)
    ensures var got, src :=
      ToMessages(Page(Keep(ChainOf(f), Visible), limit, offset)),
      ToMessages(Page(Keep(ChainOf(a.t), Visible), limit, offset));
      |got| == |src| && forall i :: 0 <= i < |got| ==>
        && got[i].kind == src[i].kind && got[i].message == src[i].message
        && src[i].uuid in Renaming(a.t, a.newID) && got[i].uuid == Renaming(a.t, a.newID)[src[i].uuid]
  {
    var ids := Renaming(a.t, a.newID);
    VisibleCopies(a, f);
    PageCopies(Keep(ChainOf(f), Visible), Keep(ChainOf(a.t), Visible), ids, limit, offset);
    CopiesReadSame(Page(Keep(ChainOf(f), Visible), limit, offset), Page(Keep(ChainOf(a.t), Visible), limit, offset),
      ids);
  }

  lemma CopiesReadSame(x: seq<Entry>, y: seq<Entry>, ids: map<string, string>)
    requires AllCopies(x, y, ids)
    ensures var got, src := ToMessages(x), ToMessages(y);
      |got| == |src| && forall i :: 0 <= i < |got| ==>
        && got[i].kind == src[i].kind && got[i].message == src[i].message
        && src[i].uuid in ids && got[i].uuid == ids[src[i].uuid]
  {
    forall i | 0 <= i < |x|
      ensures ToMessage(x[i]).kind == ToMessage(y[i]).kind && ToMessage(x[i]).message == ToMessage(y[i]).message
    {
      CopyReadsSame(x[i], y[i], ids);
    }
  }

  lemma PageCopies(f: seq<Entry>, o: seq<Entry>, ids: map<string, string>, limit: int, offset: int)
    requires AllCopies(f, o, ids)
    ensures AllCopies(Page(f, limit, offset), Page(o, limit, offset), ids)
  {
  }

  lemma {:induction false} ForkShowsSameMessages(r: TextRules, w: World, sessionID: string, opts: ForkOptions,
                                                 loaded: seq<Entry>, limit: int, offset: int)
    requires FreshIDs(w) && ForkHalts(loaded, opts.upToMessageID)
    requires ForkOf(r, w, sessionID, opts, loaded).Forked?
    requires var t := Selected(loaded, opts.upToMessageID).value; Orderly(t) && AllMain(t)
    ensures var t := Selected(loaded, opts.upToMessageID).value;
      var got, src :=
        Messages(ForkOf(r, w, sessionID, opts, loaded).entries, limit, offset), Messages(t, limit, offset);
      |got| == |src| && forall i :: 0 <= i < |got| ==>
        && got[i].kind == src[i].kind && got[i].message == src[i].message
        && src[i].uuid in Renaming(t, w.newID) && got[i].uuid == Renaming(t, w.newID)[src[i].uuid]
  {
    var t := Selected(loaded, opts.upToMessageID).value;
    IndexOfNew(w.newID);
    var a := Fk(t, w.newID, IndexOf(w.newID), w.newID(|t|), sessionID, w.now);
    var f := ForkEntries(t, Renaming(t, w.newID), a.forkID, sessionID, w.now);
    SelectedInTranscript(loaded, opts.upToMessageID);
    ForkEntriesAreFork(a);
    TranscriptOfFork(a, f, ReplacementsIn(loaded, sessionID), TitleFor(r, w, opts.title, sessionID, loaded), w,
                     |t| + 1);
    KeepAll(t, InTranscript);
    ForkReadsSame(a, f, limit, offset);
  }

  /** Without sidechain entries and without a cut, what is forked is the whole transcript. */
  lemma WholeIsSelected(loaded: seq<Entry>)
    requires forall e :: e in loaded && InTranscript(e) ==> At(e, IsSidechain) != Bool(true)
    ensures Selected(loaded, "") == Some(Transcript(loaded))
  {
    SameKeep(loaded);
  }

  lemma {:induction false} SameKeep(loaded: seq<Entry>)
    requires forall e :: e in loaded && InTranscript(e) ==> At(e, IsSidechain) != Bool(true)
    ensures Keep(loaded, Copied) == Keep(loaded, InTranscript)
  {
    if loaded != [] {
      var front, last := loaded[..|loaded| - 1], loaded[|loaded| - 1];
      assert last in loaded && forall e :: e in front ==> e in loaded;
      SameKeep(front);
    }
  }
}
