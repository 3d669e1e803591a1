/** The conversation chain of a transcript: domains/sessions/messages_from_store.go. */
module Conversation {
  import opened Json
  import opened Seqs

  predicate InTranscript(e: Entry) {
    At(e, Uuid).Str? && StrAt(e, Type) in ["user", "assistant", "progress", "system", "attachment"]
  }

  predicate IsTurn(e: Entry) {
    StrAt(e, Type) == "user" || StrAt(e, Type) == "assistant"
  }

  predicate OnMainChain(e: Entry) {
    At(e, IsSidechain) != Bool(true) && StrAt(e, TeamName) == "" && At(e, IsMeta) != Bool(true)
  }

  predicate Visible(e: Entry) {
    IsTurn(e) && OnMainChain(e)
  }

  function Id(e: Entry): string {
    StrAt(e, Uuid)
  }

  function ParentId(e: Entry): string {
    StrAt(e, ParentUuid)
  }

  /** The index a loop of map assignments leaves: a repeated uuid keeps its last entry. */
  function ById(entries: seq<Entry>): (m: map<string, Entry>)
    ensures forall u :: u in m ==> Id(m[u]) == u && m[u] in entries
    ensures forall e :: e in entries ==> Id(e) in m
  {
    if entries == [] then map[]
    else ById(entries[..|entries| - 1])[Id(entries[|entries| - 1]) := entries[|entries| - 1]]
  }

  function Positions(entries: seq<Entry>): (m: map<string, nat>)
    ensures forall u :: u in m ==> m[u] < |entries| && Id(entries[m[u]]) == u
    ensures forall i :: 0 <= i < |entries| ==> Id(entries[i]) in m && i <= m[Id(entries[i])]
  {
    if entries == [] then map[]
    else Positions(entries[..|entries| - 1])[Id(entries[|entries| - 1]) := |entries| - 1]
  }

  /** The uuids some entry names as its parent. */
  function Named(entries: seq<Entry>): (s: set<string>)
    ensures forall u :: u in s <==> u != "" && exists i :: 0 <= i < |entries| && ParentId(entries[i]) == u
  {
    set e | e in entries && ParentId(e) != "" :: ParentId(e)
  }

  function ParentOf(m: map<string, Entry>, e: Entry): Option<Entry> {
    if ParentId(e) != "" && ParentId(e) in m then Some(m[ParentId(e)]) else None
  }

  ghost predicate Keyed(m: map<string, Entry>) {
    forall u :: u in m ==> Id(m[u]) == u
  }

  /** An entry and its ancestors, child first, up to the first one already seen. */
  function Walk(m: map<string, Entry>, e: Entry, seen: set<string>): (w: seq<Entry>)
    requires Keyed(m) && Id(e) in m
    decreases m.Keys - seen
  {
    if Id(e) in seen then []
    else [e] + match ParentOf(m, e) case None => [] case Some(p) => Walk(m, p, seen + {Id(e)})
  }

  function FirstTurn(w: seq<Entry>): (t: Option<Entry>)
    ensures t.None? <==> forall e :: e in w ==> !IsTurn(e)
    ensures t.Some? ==> IsTurn(t.value) && t.value in w
  {
    if w == [] then None else if IsTurn(w[0]) then Some(w[0]) else FirstTurn(w[1..])
  }

  /** The turn a terminal is or leads back to. */
  function LeafOf(e: Entry, m: map<string, Entry>, named: set<string>): Option<Entry>
    requires Keyed(m) && Id(e) in m
  {
    if Id(e) in named then None else FirstTurn(Walk(m, e, {}))
  }

  /** The leaves, in transcript order of their terminals. */
  function Leaves(entries: seq<Entry>, m: map<string, Entry>, named: set<string>): seq<Entry>
    requires Keyed(m) && forall e :: e in entries ==> Id(e) in m
  {
    if entries == [] then []
    else
      Leaves(entries[..|entries| - 1], m, named)
      + match LeafOf(entries[|entries| - 1], m, named) case None => [] case Some(x) => [x]
  }

  lemma {:induction false} LeavesAre(entries: seq<Entry>, m: map<string, Entry>, named: set<string>)
    requires Keyed(m) && forall e :: e in entries ==> Id(e) in m
    ensures forall x :: x in Leaves(entries, m, named) <==> exists e :: e in entries && LeafOf(e, m, named) == Some(x)
  {
    if entries != [] {
      var front, last := entries[..|entries| - 1], entries[|entries| - 1];
      LeavesAre(front, m, named);
      assert entries == front + [last];
      forall x | x in Leaves(entries, m, named) ensures exists e :: e in entries && LeafOf(e, m, named) == Some(x) {
        if LeafOf(last, m, named) != Some(x) {
          assert x in Leaves(front, m, named);
        }
      }
    }
  }

  /** The first of the candidates with the greatest position. */
  function Newest(c: seq<Entry>, index: map<string, nat>): (b: Entry)
    requires c != [] && forall e :: e in c ==> Id(e) in index
    ensures b in c && forall e :: e in c ==> index[Id(e)] <= index[Id(b)]
  {
    if |c| == 1 then c[0]
    else
      var b := Newest(c[..|c| - 1], index);
      if index[Id(c[|c| - 1])] > index[Id(b)] then c[|c| - 1] else b
  }

  lemma {:induction false} WalkInMap(m: map<string, Entry>, e: Entry, seen: set<string>)
    requires Keyed(m) && Id(e) in m
    ensures forall x :: x in Walk(m, e, seen) ==> Id(x) in m && Id(x) !in seen && (x == e || m[Id(x)] == x)
    decreases m.Keys - seen
  {
    if Id(e) !in seen && ParentOf(m, e).Some? {
      WalkInMap(m, ParentOf(m, e).value, seen + {Id(e)});
    }
  }

  lemma LeavesInMap(entries: seq<Entry>, m: map<string, Entry>, named: set<string>)
    requires Keyed(m) && forall e :: e in entries ==> Id(e) in m
    ensures forall x :: x in Leaves(entries, m, named) ==> Id(x) in m
  {
    LeavesAre(entries, m, named);
    forall x | x in Leaves(entries, m, named) ensures Id(x) in m {
      var e :| e in entries && LeafOf(e, m, named) == Some(x);
      WalkInMap(m, e, {});
    }
  }

  /** The leaf the chain is walked from. */
  function Leaf(entries: seq<Entry>): (r: Option<Entry>)
    ensures r.Some? ==> Id(r.value) in ById(entries)
  {
    var m := ById(entries);
    var leaves := Leaves(entries, m, Named(entries));
    LeavesInMap(entries, m, Named(entries));
    if leaves == [] then None else Some(NewestMain(leaves, Positions(entries)))
  }

  /** The newest candidate on the main chain, or the newest if none is. */
  function NewestMain(leaves: seq<Entry>, index: map<string, nat>): (b: Entry)
    requires leaves != [] && forall e :: e in leaves ==> Id(e) in index
    ensures b in leaves
  {
    KeepIn(leaves, OnMainChain);
    var main := Keep(leaves, OnMainChain);
    Newest(if main != [] then main else leaves, index)
  }

  function Transcript(all: seq<Entry>): seq<Entry> {
    Keep(all, InTranscript)
  }

  /** The chain, root first. */
  function ChainOf(entries: seq<Entry>): seq<Entry> {
    match Leaf(entries)
    case None => []
    case Some(leaf) => Reversed(Walk(ById(entries), leaf, {}))
  }

  function Chain(all: seq<Entry>): seq<Entry> {
    ChainOf(Transcript(all))
  }

  method ConversationChain(all: seq<Entry>) returns (chain: seq<Entry>)
    ensures chain == Chain(all)
  {
    var entries := Select(all, InTranscript);
    if |entries| == 0 {
      return [];
    }
    var byUUID, index, parents := BuildIndexes(entries);
    var leaves := CollectLeaves(entries, byUUID, parents);
    if |leaves| == 0 {
      return [];
    }
    LeavesInMap(entries, byUUID, parents);
    var leaf := BestLeaf(leaves, index);
    chain := ChainFrom(leaf, byUUID);
    chain := ReverseInPlace(chain);
  }

  datatype SessionMessage = SessionMessage(kind: string, uuid: string, sessionID: string, message: Json)

  function ToMessage(e: Entry): SessionMessage {
    SessionMessage(StrAt(e, Type), Id(e), StrAt(e, SessionId), At(e, Message))
  }

  function ToMessages(c: seq<Entry>): (r: seq<SessionMessage>)
    ensures |r| == |c| && forall i :: 0 <= i < |c| ==> r[i] == ToMessage(c[i])
  {
    seq(|c|, i requires 0 <= i < |c| => ToMessage(c[i]))
  }

  /** One page of the conversation a reader sees. */
  function Messages(all: seq<Entry>, limit: int, offset: int): seq<SessionMessage> {
    ToMessages(Page(Keep(Chain(all), Visible), limit, offset))
  }

  method GetSessionMessages(entries: seq<Entry>, limit: int, offset: int) returns (out: seq<SessionMessage>)
    ensures out == Messages(entries, limit, offset)
  {
    var all := ConversationChain(entries);
    var chain := Select(all, Visible);
    out := Convert(Page(chain, limit, offset));
  }

  /** An entry a reader sees: a turn of the user or the assistant, not meta, not of a sidechain and of no team. */
  predicate Speaks(e: Entry) {
    && Type in e && (e[Type] == Str("user") || e[Type] == Str("assistant"))
    && !(IsMeta in e && e[IsMeta] == Bool(true)) && !(IsSidechain in e && e[IsSidechain] == Bool(true))
    && !(TeamName in e && e[TeamName].Str? && e[TeamName].s != "")
  }

  /** The message says who speaks, and carries the entry's uuid, session and message. */
  predicate Carries(m: SessionMessage, e: Entry) {
    && Type in e && e[Type] == Str(m.kind) && m.uuid == StrAt(e, Uuid) && m.sessionID == StrAt(e, SessionId)
    && m.message == if Message in e then e[Message] else Null
  }

  lemma SpeaksIff(e: Entry)
    ensures Visible(e) <==> Speaks(e)
    ensures Speaks(e) ==> Carries(ToMessage(e), e)
  {
  }

  /** The messages are those of the entries of c that a reader sees, one for each, in order. */
  ghost predicate ShowsAt(c: seq<Entry>, shown: seq<SessionMessage>, at: seq<nat>) {
    && |at| == |shown| && (forall k, l :: 0 <= k < l < |at| ==> at[k] < at[l])
    && (forall k :: 0 <= k < |at| ==> at[k] < |c| && Speaks(c[at[k]]) && Carries(shown[k], c[at[k]]))
    && (forall i :: 0 <= i < |c| && Speaks(c[i]) ==> i in at)
  }

  lemma KeptShows(c: seq<Entry>, kept: seq<Entry>, at: seq<nat>)
    requires KeptAt(c, Visible, kept, at)
    ensures ShowsAt(c, ToMessages(kept), at)
  {
    forall k | 0 <= k < |at|
      ensures at[k] < |c| && Speaks(c[at[k]]) && Carries(ToMessages(kept)[k], c[at[k]])
    {
      SpeaksIff(c[at[k]]);
    }
    forall i | 0 <= i < |c| && Speaks(c[i]) ensures i in at {
      SpeaksIff(c[i]);
    }
  }

  /** Unpaged, the messages shown are those of the chain's entries that a reader sees. */
  lemma {:induction false} ShownAre(all: seq<Entry>) returns (at: seq<nat>)
    ensures ShowsAt(Chain(all), Messages(all, 0, 0), at)
  {
    at := KeepAt(Chain(all), Visible);
    KeptShows(Chain(all), Keep(Chain(all), Visible), at);
  }

  method Convert(page: seq<Entry>) returns (out: seq<SessionMessage>)
    ensures out == ToMessages(page)
  {
    out := [];
    for i := 0 to |page|
      invariant |out| == i && forall k :: 0 <= k < i ==> out[k] == ToMessage(page[k])
    {
      out := out + [ToMessage(page[i])];
    }
  }

  method Select(all: seq<Entry>, p: Entry -> bool) returns (kept: seq<Entry>)
    ensures kept == Keep(all, p)
  {
    kept := [];
    for i := 0 to |all|
      invariant kept == Keep(all[..i], p)
    {
      KeepStep(all, p, i);
      if p(all[i]) {
        kept := kept + [all[i]];
      }
    }
    assert all[..|all|] == all;
  }

  lemma NamedStep(entries: seq<Entry>, i: nat)
    requires i < |entries|
    ensures Named(entries[..i + 1])
      == Named(entries[..i]) + (if ParentId(entries[i]) != "" then {ParentId(entries[i])} else {})
  {
    assert entries[..i + 1] == entries[..i] + [entries[i]];
  }

  lemma {:induction false} IndexStep(entries: seq<Entry>, i: nat)
    requires i < |entries|
    ensures ById(entries[..i + 1]) == ById(entries[..i])[Id(entries[i]) := entries[i]]
    ensures Positions(entries[..i + 1]) == Positions(entries[..i])[Id(entries[i]) := i]
  {
    assert entries[..i + 1][..i] == entries[..i];
  }

  method BuildIndexes(entries: seq<Entry>)
    returns (byUUID: map<string, Entry>, index: map<string, nat>, parents: set<string>)
    ensures byUUID == ById(entries) && index == Positions(entries) && parents == Named(entries)
  {
    byUUID, index := map[], map[];
    for i := 0 to |entries|
      invariant byUUID == ById(entries[..i]) && index == Positions(entries[..i])
    {
      IndexStep(entries, i);
      byUUID, index := byUUID[Id(entries[i]) := entries[i]], index[Id(entries[i]) := i];
    }
    parents := {};
    for i := 0 to |entries|
      invariant parents == Named(entries[..i])
    {
      NamedStep(entries, i);
      if ParentId(entries[i]) != "" {
        parents := parents + {ParentId(entries[i])};
      }
    }
    assert entries[..|entries|] == entries;
  }

  method BestLeaf(leaves: seq<Entry>, index: map<string, nat>) returns (leaf: Entry)
    requires leaves != [] && forall e :: e in leaves ==> Id(e) in index
    ensures leaf == NewestMain(leaves, index)
  {
    var main := Select(leaves, OnMainChain);
    KeepIn(leaves, OnMainChain);
    leaf := Best(leaves, index);
    if |main| > 0 {
      leaf := Best(main, index);
    }
  }

  method Best(c: seq<Entry>, index: map<string, nat>) returns (b: Entry)
    requires c != [] && forall e :: e in c ==> Id(e) in index
    ensures b == Newest(c, index)
  {
    b := c[0];
    for i := 1 to |c|
      invariant b == Newest(c[..i], index)
    {
      assert c[..i + 1][..i] == c[..i];
      if index[Id(c[i])] > index[Id(b)] {
        b := c[i];
      }
    }
    assert c[..|c|] == c;
  }

  method CollectLeaves(entries: seq<Entry>, m: map<string, Entry>, parents: set<string>) returns (leaves: seq<Entry>)
    requires Keyed(m) && forall e :: e in entries ==> Id(e) in m
    ensures leaves == Leaves(entries, m, parents)
  {
    leaves := [];
    for i := 0 to |entries|
      invariant leaves == Leaves(entries[..i], m, parents)
    {
      var e := entries[i];
      assert entries[..i + 1][..i] == entries[..i];
      if Id(e) in parents {
        continue;
      }
      var found := TurnFrom(e, m);
      if found.Some? {
        leaves := leaves + [found.value];
      }
    }
    assert entries[..|entries|] == entries;
  }

  /** The first turn on the way up from a terminal. */
  method TurnFrom(e: Entry, m: map<string, Entry>) returns (found: Option<Entry>)
    requires Keyed(m) && Id(e) in m
    ensures found == FirstTurn(Walk(m, e, {}))
  {
    var seen: set<string> := {};
    var cur := Some(e);
    found := None;
    while cur.Some? && Id(cur.value) !in seen && found.None?
      invariant cur.Some? ==> Id(cur.value) in m
      invariant found.Some? ==> FirstTurn(Walk(m, e, {})) == found
      invariant found.None? ==>
        FirstTurn(Walk(m, e, {})) == if cur.Some? then FirstTurn(Walk(m, cur.value, seen)) else None
      decreases m.Keys - seen, found.None?
    {
      seen := seen + {Id(cur.value)};
      if IsTurn(cur.value) {
        found := cur;
      } else {
        cur := ParentOf(m, cur.value);
      }
    }
  }

  lemma WalkNext(m: map<string, Entry>, chain: seq<Entry>, e: Entry, seen: set<string>)
    requires Keyed(m) && Id(e) in m && Id(e) !in seen
    ensures chain + Walk(m, e, seen) == chain + [e]
      + match ParentOf(m, e) case None => [] case Some(p) => Walk(m, p, seen + {Id(e)})
  {
    Associative(chain, [e], match ParentOf(m, e) case None => [] case Some(p) => Walk(m, p, seen + {Id(e)}));
  }

  method ChainFrom(leaf: Entry, m: map<string, Entry>) returns (chain: seq<Entry>)
    requires Keyed(m) && Id(leaf) in m
    ensures chain == Walk(m, leaf, {})
  {
    chain := [];
    var seen: set<string> := {};
    var cur := Some(leaf);
    while cur.Some? && Id(cur.value) !in seen
      invariant cur.Some? ==> Id(cur.value) in m
      invariant Walk(m, leaf, {}) == chain + (if cur.Some? then Walk(m, cur.value, seen) else [])
      decreases m.Keys - seen
    {
      WalkNext(m, chain, cur.value, seen);
      seen := seen + {Id(cur.value)};
      chain := chain + [cur.value];
      cur := ParentOf(m, cur.value);
    }
  }

  // What a chain is, whatever the transcript: branches, dangling parents, repeated uuids, cycles.

  /** w starts at e, repeats no uuid and none in seen, goes from child to resolved parent, and ends where there
      is none or it has been visited. */
  ghost predicate IsWalk(m: map<string, Entry>, w: seq<Entry>, e: Entry, seen: set<string>) {
    && w != [] && w[0] == e
    && (forall i :: 0 <= i < |w| ==> Id(w[i]) !in seen)
    && (forall i, j :: 0 <= i < j < |w| ==> Id(w[i]) != Id(w[j]))
    && (forall i :: 0 <= i < |w| - 1 ==> ParentOf(m, w[i]) == Some(w[i + 1]))
    && (ParentOf(m, w[|w| - 1]).Some? ==> Visited(w, Id(ParentOf(m, w[|w| - 1]).value), seen))
  }

  ghost predicate Visited(w: seq<Entry>, id: string, seen: set<string>) {
    id in seen || exists i :: 0 <= i < |w| && Id(w[i]) == id
  }

  lemma VisitedStep(w: seq<Entry>, e: Entry, id: string, seen: set<string>)
    requires Visited(w, id, seen + {Id(e)})
    ensures Visited([e] + w, id, seen)
  {
    if id !in seen {
      if id == Id(e) {
        assert Id(([e] + w)[0]) == id;
      } else {
        var i :| 0 <= i < |w| && Id(w[i]) == id;
        assert Id(([e] + w)[i + 1]) == id;
      }
    }
  }

  lemma WalkStep(m: map<string, Entry>, e: Entry, p: Entry, rest: seq<Entry>, seen: set<string>)
    requires ParentOf(m, e) == Some(p) && Id(e) !in seen && IsWalk(m, rest, p, seen + {Id(e)})
    ensures IsWalk(m, [e] + rest, e, seen)
  {
    var w := [e] + rest;
    assert forall i :: 0 < i < |w| ==> w[i] == rest[i - 1];
    if ParentOf(m, w[|w| - 1]).Some? {
      VisitedStep(rest, e, Id(ParentOf(m, w[|w| - 1]).value), seen);
    }
  }

  lemma {:induction false} WalkFacts(m: map<string, Entry>, e: Entry, seen: set<string>)
    requires Keyed(m) && Id(e) in m && Id(e) !in seen
    ensures IsWalk(m, Walk(m, e, seen), e, seen)
    decreases m.Keys - seen
  {
    match ParentOf(m, e) {
      case None =>
      case Some(p) =>
        var seen' := seen + {Id(e)};
        if Id(p) in seen' {
          assert Walk(m, e, seen) == [e];
          VisitedStep([], e, Id(p), seen);
        } else {
          WalkFacts(m, p, seen');
          WalkStep(m, e, p, Walk(m, p, seen'), seen);
        }
    }
  }

  ghost predicate IsLeaf(entries: seq<Entry>, x: Entry) {
    exists e :: e in entries && LeafOf(e, ById(entries), Named(entries)) == Some(x)
  }

  lemma {:induction false} LeafFacts(entries: seq<Entry>)
    ensures match Leaf(entries)
      case None => forall x :: !IsLeaf(entries, x)
      case Some(l) => IsNewestLeaf(entries, l)
  {
    var m, named := ById(entries), Named(entries);
    var leaves := Leaves(entries, m, named);
    LeavesAre(entries, m, named);
    assert forall x :: x in leaves <==> IsLeaf(entries, x);
    LeavesInMap(entries, m, named);
    KeepIn(leaves, OnMainChain);
    if leaves == [] {
    } else {
      assert IsLeaf(entries, leaves[0]);
      var main := Keep(leaves, OnMainChain);
      if main == [] {
        assert forall x :: x in leaves ==> !OnMainChain(x);
      }
    }
  }

  ghost predicate NoRepeat(c: seq<Entry>) {
    forall i, j :: 0 <= i < j < |c| ==> Id(c[i]) != Id(c[j])
  }

  /** Each entry is the resolved parent of the next. */
  ghost predicate Linked(m: map<string, Entry>, c: seq<Entry>) {
    forall i :: 0 < i < |c| ==> ParentOf(m, c[i]) == Some(c[i - 1])
  }

  /** The first entry has no parent in the transcript, or one already on the chain. */
  ghost predicate Rooted(m: map<string, Entry>, c: seq<Entry>) {
    c != [] ==> ParentOf(m, c[0]).None? || exists i :: 0 <= i < |c| && Id(c[i]) == ParentId(c[0])
  }

  /** The newest main-chain leaf, or the newest leaf if none is on the main chain. */
  ghost predicate IsNewestLeaf(entries: seq<Entry>, l: Entry) {
    var index := Positions(entries);
    && IsLeaf(entries, l) && IsTurn(l) && Id(l) in index
    && (OnMainChain(l) || forall x :: IsLeaf(entries, x) ==> !OnMainChain(x))
    && forall x :: IsLeaf(entries, x) && OnMainChain(x) == OnMainChain(l) ==>
       Id(x) in index && index[Id(x)] <= index[Id(l)]
  }

  lemma ReversedWalk(m: map<string, Entry>, l: Entry)
    requires Keyed(m) && Id(l) in m
    ensures var c := Reversed(Walk(m, l, {}));
      c != [] && c[|c| - 1] == l && NoRepeat(c) && Linked(m, c) && Rooted(m, c)
  {
    WalkFacts(m, l, {});
    ReversedLinks(m, Walk(m, l, {}));
    ReversedRoot(m, Walk(m, l, {}));
  }

  lemma ReversedLinks(m: map<string, Entry>, w: seq<Entry>)
    requires forall i, j :: 0 <= i < j < |w| ==> Id(w[i]) != Id(w[j])
    requires forall i :: 0 <= i < |w| - 1 ==> ParentOf(m, w[i]) == Some(w[i + 1])
    ensures NoRepeat(Reversed(w)) && Linked(m, Reversed(w))
  {
    var c := Reversed(w);
    forall i | 0 < i < |c| ensures ParentOf(m, c[i]) == Some(c[i - 1]) {
      var k := |w| - 1 - i;
      assert ParentOf(m, w[k]) == Some(w[k + 1]);
    }
    forall i, j | 0 <= i < j < |c| ensures Id(c[i]) != Id(c[j]) {
      assert Id(w[|w| - 1 - j]) != Id(w[|w| - 1 - i]);
    }
  }

  lemma ReversedRoot(m: map<string, Entry>, w: seq<Entry>)
    requires w != [] && (ParentOf(m, w[|w| - 1]).Some? ==> exists i :: 0 <= i < |w| && Id(w[i]) == ParentId(w[|w| - 1]))
    ensures Rooted(m, Reversed(w))
  {
    var c := Reversed(w);
    if ParentOf(m, c[0]).Some? {
      var i :| 0 <= i < |w| && Id(w[i]) == ParentId(c[0]);
      assert Id(c[|w| - 1 - i]) == ParentId(c[0]);
    }
  }

  ghost predicate HasLeaf(entries: seq<Entry>) {
    exists x :: IsLeaf(entries, x)
  }

  ghost predicate IsConversation(entries: seq<Entry>, c: seq<Entry>) {
    && NoRepeat(c) && Linked(ById(entries), c) && Rooted(ById(entries), c)
    && (c != [] <==> HasLeaf(entries))
    && (c != [] ==> IsNewestLeaf(entries, c[|c| - 1]))
  }

  /** Every transcript has a chain (the walk ends even on a parent cycle): it repeats no uuid, is
      linked by parentUuid, ends at the newest leaf and starts at a root. It is empty only when the
      transcript has no leaf. */
  lemma {:induction false} ChainFacts(all: seq<Entry>)
    ensures IsConversation(Transcript(all), Chain(all))
  {
    var entries := Transcript(all);
    LeafFacts(entries);
    match Leaf(entries) {
      case None =>
      case Some(l) => ReversedWalk(ById(entries), l);
    }
  }

  // Transcripts as the CLI appends them: every uuid new, every link to an entry already written.

  /** Every uuid stands for one entry, and a resolved parent comes before its child. */
  ghost predicate Orderly(entries: seq<Entry>) {
    && (forall i :: 0 <= i < |entries| ==> Positions(entries)[Id(entries[i])] == i)
    && (forall i :: 0 <= i < |entries| && ParentAt(entries, i).Some? ==> ParentAt(entries, i).value < i)
  }

  ghost predicate AllMain(entries: seq<Entry>) {
    forall i :: 0 <= i < |entries| && IsTurn(entries[i]) ==> OnMainChain(entries[i])
  }

  /** The position of the resolved parent, if there is one. */
  function ParentAt(entries: seq<Entry>, i: nat): (p: Option<nat>)
    requires i < |entries|
    ensures p.Some? ==>
      p.value < |entries| && ParentId(entries[i]) != "" && Id(entries[p.value]) == ParentId(entries[i])
  {
    var index := Positions(entries);
    var u := ParentId(entries[i]);
    if u != "" && u in index then Some(index[u]) else None
  }

  /** The positions of an entry and its ancestors, child first. */
  ghost function Ancestry(entries: seq<Entry>, i: nat): (a: seq<nat>)
    requires Orderly(entries) && i < |entries|
    ensures a != [] && a[0] == i && forall k :: 0 <= k < |a| ==> a[k] <= i
  {
    [i] + match ParentAt(entries, i) case None => [] case Some(p) => Ancestry(entries, p)
  }

  ghost function Pick(entries: seq<Entry>, idx: seq<nat>): (r: seq<Entry>)
    requires forall k :: 0 <= k < |idx| ==> idx[k] < |entries|
    ensures |r| == |idx| && forall k :: 0 <= k < |idx| ==> r[k] == entries[idx[k]]
  {
    seq(|idx|, k requires 0 <= k < |idx| => entries[idx[k]])
  }

  lemma PickStep(entries: seq<Entry>, i: nat, idx: seq<nat>)
    requires i < |entries| && forall k :: 0 <= k < |idx| ==> idx[k] < |entries|
    ensures Pick(entries, [i] + idx) == [entries[i]] + Pick(entries, idx)
  {
  }

  lemma ByIdAt(entries: seq<Entry>)
    ensures var m, index := ById(entries), Positions(entries);
      m.Keys == index.Keys && forall u :: u in m ==> m[u] == entries[index[u]]
  {
    forall u ensures (u in ById(entries) <==> u in Positions(entries))
      && (u in ById(entries) ==> ById(entries)[u] == entries[Positions(entries)[u]]) {
      OneByIdAt(entries, u);
    }
  }

  lemma {:induction false} OneByIdAt(entries: seq<Entry>, u: string)
    ensures u in ById(entries) <==> u in Positions(entries)
    ensures u in ById(entries) ==> ById(entries)[u] == entries[Positions(entries)[u]]
  {
    if entries != [] {
      OneByIdAt(entries[..|entries| - 1], u);
    }
  }

  lemma ParentIs(entries: seq<Entry>, i: nat)
    requires Orderly(entries) && i < |entries|
    ensures ParentOf(ById(entries), entries[i])
      == match ParentAt(entries, i) case None => None case Some(p) => Some(entries[p])
  {
    OneByIdAt(entries, ParentId(entries[i]));
  }

  lemma EarlierIds(entries: seq<Entry>, i: nat)
    requires Orderly(entries) && i < |entries|
    ensures forall k :: 0 <= k < i ==> Id(entries[k]) != Id(entries[i])
  {
  }

  /** Nothing up to the i-th entry has been seen. */
  ghost predicate Unseen(entries: seq<Entry>, i: nat, seen: set<string>) {
    forall k :: 0 <= k <= i < |entries| ==> Id(entries[k]) !in seen
  }

  lemma UnseenUp(entries: seq<Entry>, i: nat, p: nat, seen: set<string>)
    requires Orderly(entries) && i < |entries| && ParentAt(entries, i) == Some(p) && Unseen(entries, i, seen)
    ensures p < i && Unseen(entries, p, seen + {Id(entries[i])})
  {
    EarlierIds(entries, i);
  }

  /** Walk and ancestry take the same step. */
  lemma {:induction false} AncestryStep(entries: seq<Entry>, i: nat, seen: set<string>)
    requires Orderly(entries) && i < |entries| && Id(entries[i]) !in seen
    ensures match ParentAt(entries, i)
      case None =>
        Walk(ById(entries), entries[i], seen) == [entries[i]] && Pick(entries, Ancestry(entries, i)) == [entries[i]]
      case Some(p) =>
        && Walk(ById(entries), entries[i], seen)
             == [entries[i]] + Walk(ById(entries), entries[p], seen + {Id(entries[i])})
        && Pick(entries, Ancestry(entries, i)) == [entries[i]] + Pick(entries, Ancestry(entries, p))
  {
    ParentIs(entries, i);
    match ParentAt(entries, i) {
      case None =>
      case Some(p) => PickStep(entries, i, Ancestry(entries, p));
    }
  }

  lemma {:induction false} WalkIsAncestry(entries: seq<Entry>, i: nat, seen: set<string>)
    requires Orderly(entries) && i < |entries| && Unseen(entries, i, seen)
    ensures Walk(ById(entries), entries[i], seen) == Pick(entries, Ancestry(entries, i))
    decreases i
  {
    AncestryStep(entries, i, seen);
    match ParentAt(entries, i) {
      case None =>
      case Some(p) =>
        UnseenUp(entries, i, p, seen);
        WalkIsAncestry(entries, p, seen + {Id(entries[i])});
    }
  }

  /** The position of the last turn. */
  ghost function LastTurn(entries: seq<Entry>): (r: Option<nat>)
    ensures r.None? ==> forall i :: 0 <= i < |entries| ==> !IsTurn(entries[i])
    ensures r.Some? ==>
      r.value < |entries| && IsTurn(entries[r.value]) && forall i :: r.value < i < |entries| ==> !IsTurn(entries[i])
  {
    if entries == [] then None
    else if IsTurn(entries[|entries| - 1]) then Some(|entries| - 1)
    else LastTurn(entries[..|entries| - 1])
  }

  lemma {:induction false} ChildWalk(entries: seq<Entry>, c: nat, i: nat)
    requires Orderly(entries) && c < |entries| && ParentAt(entries, c) == Some(i)
    ensures Walk(ById(entries), entries[c], {}) == [entries[c]] + Walk(ById(entries), entries[i], {})
  {
    WalkIsAncestry(entries, i, {});
    WalkIsAncestry(entries, c, {});
    PickStep(entries, c, Ancestry(entries, i));
  }

  /** From the last turn, following children that cannot be turns themselves ends at a terminal. */
  lemma {:induction false} TerminalBelow(entries: seq<Entry>, last: nat, i: nat)
    requires Orderly(entries) && LastTurn(entries) == Some(last) && last <= i < |entries|
    requires FirstTurn(Walk(ById(entries), entries[i], {})) == Some(entries[last])
    ensures IsLeaf(entries, entries[last])
    decreases |entries| - i
  {
    var m, named := ById(entries), Named(entries);
    if Id(entries[i]) !in named {
      assert LeafOf(entries[i], m, named) == Some(entries[last]);
    } else {
      var c :| 0 <= c < |entries| && ParentId(entries[c]) == Id(entries[i]);
      assert ParentAt(entries, c) == Some(i);
      ChildWalk(entries, c, i);
      var wi, wc := Walk(m, entries[i], {}), Walk(m, entries[c], {});
      assert wc[1..] == wi;
      TerminalBelow(entries, last, c);
    }
  }

  lemma {:induction false} NewestIsLast(entries: seq<Entry>, i: nat, l: nat)
    requires Orderly(entries) && AllMain(entries) && LastTurn(entries) == Some(l) && i < |entries|
    requires IsLeaf(entries, entries[l]) && IsNewestLeaf(entries, entries[i])
    ensures i == l
  {
    assert IsTurn(entries[i]) && IsTurn(entries[l]);
    assert OnMainChain(entries[i]) == OnMainChain(entries[l]);
    var index := Positions(entries);
    assert index[Id(entries[l])] <= index[Id(entries[i])];
  }

  /** The search over terminals picks the last user or assistant entry. */
  lemma {:induction false} LeafIsLastTurn(entries: seq<Entry>)
    requires Orderly(entries) && AllMain(entries)
    ensures match LastTurn(entries) case None => Leaf(entries).None? case Some(l) => Leaf(entries) == Some(entries[l])
  {
    match LastTurn(entries) {
      case None =>
        if Leaf(entries).Some? {
          NewestHasTurn(entries, Leaf(entries).value);
        }
      case Some(l) =>
        WalkIsAncestry(entries, l, {});
        assert Walk(ById(entries), entries[l], {})[0] == entries[l];
        TerminalBelow(entries, l, l);
        LastLeafWins(entries, l);
    }
  }

  lemma {:induction false} NewestHasTurn(entries: seq<Entry>, best: Entry)
    requires Leaf(entries) == Some(best)
    ensures exists i :: 0 <= i < |entries| && IsTurn(entries[i])
  {
    LeafFacts(entries);
    LeavesAreTurns(entries);
  }

  lemma {:induction false} LastLeafWins(entries: seq<Entry>, l: nat)
    requires Orderly(entries) && AllMain(entries) && LastTurn(entries) == Some(l)
    requires IsLeaf(entries, entries[l])
    ensures Leaf(entries) == Some(entries[l])
  {
    LeafFacts(entries);
    LeavesAreTurns(entries);
    var i :| 0 <= i < |entries| && entries[i] == Leaf(entries).value;
    NewestIsLast(entries, i, l);
  }

  lemma {:induction false} LeavesAreTurns(entries: seq<Entry>)
    ensures forall x :: IsLeaf(entries, x) ==> IsTurn(x) && exists i :: 0 <= i < |entries| && entries[i] == x
  {
    var m, named := ById(entries), Named(entries);
    forall x | IsLeaf(entries, x) ensures IsTurn(x) && x in entries {
      var e :| e in entries && LeafOf(e, m, named) == Some(x);
      WalkInMap(m, e, {});
    }
  }

  /** So its chain is that entry and its ancestors. */
  lemma {:induction false} ChainIsAncestry(all: seq<Entry>)
    requires var entries := Transcript(all); Orderly(entries) && AllMain(entries)
    ensures var entries := Transcript(all);
      match LastTurn(entries) case None => Chain(all) == []
      case Some(l) => Chain(all) == Reversed(Pick(entries, Ancestry(entries, l)))
  {
    var entries := Transcript(all);
    LeafIsLastTurn(entries);
    if LastTurn(entries).Some? {
      WalkIsAncestry(entries, LastTurn(entries).value, {});
    }
  }

  lemma {:induction false} ChainWithin(entries: seq<Entry>)
    ensures forall x :: x in ChainOf(entries) ==> x in entries
  {
    if Leaf(entries).Some? {
      var m, l := ById(entries), Leaf(entries).value;
      LeafFacts(entries);
      LeavesAreTurns(entries);
      WalkInMap(m, l, {});
    }
  }
}
