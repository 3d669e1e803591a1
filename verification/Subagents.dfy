/** A subagent's conversation: domains/sessions/subagents_from_store.go. */
module Subagents {
  import opened Json
  import opened Seqs
  import opened Conversation

  /** An entry and its ancestors. Unlike `Conversation.Walk`, an absent parent is looked up as "". */
  function Climb(m: map<string, Entry>, e: Entry, seen: set<string>): seq<Entry>
    requires Keyed(m) && Id(e) in m
    decreases m.Keys - seen
  {
    if Id(e) in seen then []
    else [e] + if ParentId(e) in m then Climb(m, m[ParentId(e)], seen + {Id(e)}) else []
  }

  /** The turns from the last one back to the root, oldest first. */
  function SubagentChainOf(entries: seq<Entry>): seq<Entry> {
    match Latest(entries)
    case None => []
    case Some(i) => Reversed(Keep(Climb(ById(entries), entries[i], {}), IsTurn))
  }

  function Latest(entries: seq<Entry>): (r: Option<nat>)
    ensures r.Some? ==> r.value < |entries|
    ensures r == LastTurn(entries)
  {
    if entries == [] then None
    else if IsTurn(entries[|entries| - 1]) then Some(|entries| - 1)
    else Latest(entries[..|entries| - 1])
  }

  method Index(entries: seq<Entry>) returns (byUUID: map<string, Entry>)
    ensures byUUID == ById(entries)
  {
    byUUID := map[];
    for i := 0 to |entries|
      invariant byUUID == ById(entries[..i])
    {
      IndexStep(entries, i);
      byUUID := byUUID[Id(entries[i]) := entries[i]];
    }
    assert entries[..|entries|] == entries;
  }

  method SubagentChain(entries: seq<Entry>) returns (chain: seq<Entry>)
    ensures chain == SubagentChainOf(entries)
  {
    var byUUID := Index(entries);
    var leaf := FindLatest(entries);
    if leaf.None? {
      return [];
    }
    chain := TurnsFrom(byUUID, entries[leaf.value]);
    chain := ReverseInPlace(chain);
  }

  /** The last turn, looked for from the end. */
  method FindLatest(entries: seq<Entry>) returns (leaf: Option<nat>)
    ensures leaf == Latest(entries)
  {
    var n := |entries|;
    assert entries[..n] == entries;
    while n > 0 && !IsTurn(entries[n - 1])
      invariant 0 <= n <= |entries| && Latest(entries[..n]) == Latest(entries)
    {
      assert entries[..n][..n - 1] == entries[..n - 1];
      n := n - 1;
    }
    leaf := if n == 0 then None else Some(n - 1);
  }

  function Above(m: map<string, Entry>, e: Entry): Option<Entry> {
    if ParentId(e) in m then Some(m[ParentId(e)]) else None
  }

  function ClimbFrom(m: map<string, Entry>, cur: Option<Entry>, seen: set<string>): seq<Entry>
    requires Keyed(m) && (cur.Some? ==> Id(cur.value) in m)
  {
    if cur.None? then [] else Climb(m, cur.value, seen)
  }

  method TurnsFrom(m: map<string, Entry>, leaf: Entry) returns (chain: seq<Entry>)
    requires Keyed(m) && Id(leaf) in m
    ensures chain == Keep(Climb(m, leaf, {}), IsTurn)
  {
    chain := [];
    var seen: set<string> := {};
    var cur := Some(leaf);
    ghost var w, k := Climb(m, leaf, {}), 0;
    while cur.Some? && Id(cur.value) !in seen
      invariant cur.Some? ==> Id(cur.value) in m
      invariant k <= |w| && ClimbFrom(m, cur, seen) == w[k..] && chain == Keep(w[..k], IsTurn)
      decreases m.Keys - seen
    {
      var e := cur.value;
      KeepStep(w, IsTurn, k);
      seen := seen + {Id(e)};
      if IsTurn(e) {
        chain := chain + [e];
      }
      cur, k := Above(m, e), k + 1;
    }
    assert w[..k] == w;
  }

  lemma {:induction false} ClimbIsWalk(m: map<string, Entry>, e: Entry, seen: set<string>)
    requires Keyed(m) && Id(e) in m && "" !in m
    ensures Climb(m, e, seen) == Walk(m, e, seen)
    decreases m.Keys - seen
  {
    if Id(e) !in seen && ParentId(e) in m {
      ClimbIsWalk(m, m[ParentId(e)], seen + {Id(e)});
    }
  }

  /** A linear transcript has one conversation: the subagent reader, which starts at the last turn,
      and the session reader, which searches the terminals, find the same turns. */
  lemma {:induction false} SubagentChainIsConversation(entries: seq<Entry>)
    requires Orderly(entries) && AllMain(entries) && forall i :: 0 <= i < |entries| ==> Id(entries[i]) != ""
    ensures SubagentChainOf(entries) == Keep(ChainOf(entries), IsTurn)
  {
    LeafIsLastTurn(entries);
    if Latest(entries).Some? {
      var leaf := entries[Latest(entries).value];
      ByIdAt(entries);
      ClimbIsWalk(ById(entries), leaf, {});
      KeepReversed(Walk(ById(entries), leaf, {}), IsTurn);
    }
  }
}
