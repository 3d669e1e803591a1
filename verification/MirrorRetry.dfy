/** What the mirror's retries leave in a store that fails: domains/agent/mirror.go, with the advice to adapters
    of domains/agent/options.go. */
module MirrorRetry {
  import opened Json
  import opened Seqs
  import opened MemoryStore
  import opened Mirror
  import opened MirrorOrder

  // The attempts.

  /** The attempts of one append: at most three, all of the whole batch, every one but the last failed without
      timing out; and short of success it gives up only after a timeout, the third attempt, or when the
      context ended in the wait. */
  lemma AttemptsBounded(c: Config, n: nat, key: SessionKey, batch: seq<Entry>)
    ensures var tries := Tries(c, n, key, batch, 0);
      && 1 <= |tries| <= ATTEMPTS
      && (forall i :: 0 <= i < |tries| ==> tries[i] == Attempt(key, batch, c.world(n + i)))
      && (forall i :: 0 <= i < |tries| - 1 ==> tries[i].t.fails && !tries[i].t.timedOut)
      && (!Succeeded(tries) ==> |tries| == ATTEMPTS || tries[|tries| - 1].t.timedOut || c.world(n + |tries|).quit)
  {
    assert Tries(c, n + 3, key, batch, 3) == [];
    LastTry(c, n + 2, key, batch);
    MiddleTry(c, n + 1, key, batch);
  }

  lemma LastTry(c: Config, n: nat, key: SessionKey, batch: seq<Entry>)
    ensures Tries(c, n, key, batch, 2) == if c.world(n).quit then [] else [Attempt(key, batch, c.world(n))]
  {
    assert Tries(c, n + 1, key, batch, 3) == [];
  }

  lemma MiddleTry(c: Config, n: nat, key: SessionKey, batch: seq<Entry>)
    ensures Tries(c, n, key, batch, 1) ==
      (var more := if c.world(n).fails && !c.world(n).timedOut then Tries(c, n + 1, key, batch, 2) else [];
       if c.world(n).quit then [] else [Attempt(key, batch, c.world(n))] + more)
  {
    assert [Attempt(key, batch, c.world(n))] + [] == [Attempt(key, batch, c.world(n))];
  }

  /** Every path's group ends once: with one successful append of everything pending for it, its last event,
      and no report; or with one report, its last event, and no success. */
  lemma GroupEndsOnce(c: Config, n: nat, path: string, batch: seq<Entry>)
    ensures var g := Group(c, n, path, batch);
      && g != []
      && (forall i :: 0 <= i < |g| - 1 ==> g[i].Attempt? && g[i].t.fails)
      && (var last := g[|g| - 1];
          if last.Report? then last.of == KeyOf(c, path)
          else Some(last.key) == KeyOf(c, path) && last.batch == batch && !last.t.fails)
  {
    var key := KeyOf(c, path);
    if key.Some? {
      AttemptsBounded(c, n, key.value, batch);
    }
  }

  // An adapter that knows entries by their uuids.

  predicate Named(e: Entry) {
    StrAt(e, Field.Uuid) != ""
  }

  function Uuids(s: seq<Entry>): set<string> {
    set e | e in s && Named(e) :: StrAt(e, Field.Uuid)
  }

  /** No two entries have the same uuid. */
  predicate OwnUuids(s: seq<Entry>) {
    s == [] || (OwnUuids(s[..|s| - 1]) && StrAt(s[|s| - 1], Field.Uuid) !in Uuids(s[..|s| - 1]))
  }

  lemma InUuids(s: seq<Entry>, e: Entry)
    ensures e in s && Named(e) ==> StrAt(e, Field.Uuid) in Uuids(s)
  {
  }

  /** The adapter skips an entry whose uuid it already holds. */
  function AddNew(held: seq<Entry>, es: seq<Entry>): seq<Entry> {
    if es == [] then held
    else
      var h := AddNew(held, es[..|es| - 1]);
      if StrAt(es[|es| - 1], Field.Uuid) in Uuids(h) then h else h + [es[|es| - 1]]
  }

  function Picked(batch: seq<Entry>, part: seq<nat>): seq<Entry> {
    if part == [] then []
    else Picked(batch, part[..|part| - 1]) + if part[|part| - 1] < |batch| then [batch[part[|part| - 1]]] else []
  }

  /** What the adapter sees: an attempt as it is made, or later what a timed-out one still lands. */
  datatype Landing = Now(e: Event) | Late(e: Event)

  predicate TimedOut(e: Event) {
    e.Attempt? && e.t.fails && e.t.timedOut
  }

  function EventsOf(ls: seq<Landing>): seq<Event> {
    if ls == [] then [] else EventsOf(ls[..|ls| - 1]) + if ls[|ls| - 1].Now? then [ls[|ls| - 1].e] else []
  }

  /** The timed-out attempts that have not landed. */
  function Owed(ls: seq<Landing>): multiset<Event> {
    if ls == [] then multiset{}
    else
      var owed, l := Owed(ls[..|ls| - 1]), ls[|ls| - 1];
      if l.Late? then owed - multiset{l.e} else if TimedOut(l.e) then owed + multiset{l.e} else owed
  }

  /** A timed-out attempt lands once, at any point after it, or never. */
  predicate Possible(ls: seq<Landing>) {
    ls == [] || (Possible(ls[..|ls| - 1]) && (ls[|ls| - 1].Late? ==> ls[|ls| - 1].e in Owed(ls[..|ls| - 1])))
  }

  /** One way in which the events may land. */
  predicate Lands(ls: seq<Landing>, es: seq<Event>) {
    Possible(ls) && EventsOf(ls) == es
  }

  /** What lands under the key: all of the batch for an attempt that succeeds, some part of it in some order for
      one that fails, which is nothing yet for one that times out. */
  function Part(l: Landing, key: SessionKey): seq<Entry> {
    if l.e.Report? || l.e.key != key || (l.Now? && TimedOut(l.e)) then []
    else if l.e.t.fails then Picked(l.e.batch, l.e.t.part)
    else l.e.batch
  }

  /** What the adapter holds under the key after it all. */
  function Landed(held: seq<Entry>, ls: seq<Landing>, key: SessionKey): seq<Entry> {
    if ls == [] then held else AddNew(Landed(held, ls[..|ls| - 1], key), Part(ls[|ls| - 1], key))
  }

  /** h is what was held and then some of the entries, no uuid twice. */
  predicate Grown(held: seq<Entry>, es: seq<Entry>, h: seq<Entry>) {
    |held| <= |h| && h[..|held|] == held && OwnUuids(h) && forall e :: e in h[|held|..] ==> e in es
  }

  /** The entry is in h: its uuid is, or, having none, it is there itself after what was held. */
  predicate Kept(held: seq<Entry>, h: seq<Entry>, e: Entry)
    requires |held| <= |h|
  {
    if Named(e) then StrAt(e, Field.Uuid) in Uuids(h) else e in h[|held|..]
  }

  predicate AllKept(held: seq<Entry>, h: seq<Entry>, es: seq<Entry>)
    requires |held| <= |h|
  {
    forall e :: e in es ==> Kept(held, h, e)
  }

  lemma KeptLater(held: seq<Entry>, h: seq<Entry>, more: seq<Entry>, e: Entry)
    requires |held| <= |h| && h <= more && Kept(held, h, e)
    ensures Kept(held, more, e)
  {
    assert more == h + more[|h|..] && more[|held|..] == h[|held|..] + more[|h|..];
    if Named(e) {
      var d :| d in h && Named(d) && StrAt(d, Field.Uuid) == StrAt(e, Field.Uuid);
      InUuids(more, d);
    }
  }

  lemma KeptBefore(held: seq<Entry>, h: seq<Entry>, more: seq<Entry>, e: Entry)
    requires |held| <= |h| && h <= more && Kept(h, more, e)
    ensures Kept(held, more, e)
  {
    assert more[|held|..] == h[|held|..] + more[|h|..];
  }

  lemma AddOne(held: seq<Entry>, es: seq<Entry>, h: seq<Entry>, e: Entry)
    requires Grown(held, es, h) && e in es
    ensures var more := if StrAt(e, Field.Uuid) in Uuids(h) then h else h + [e];
      Grown(held, es, more) && h <= more && Kept(h, more, e)
  {
    if StrAt(e, Field.Uuid) !in Uuids(h) {
      var more := h + [e];
      assert more[..|h|] == h && more[|held|..] == h[|held|..] + [e] && more[|h|..] == [e];
      InUuids(more, e);
    }
  }

  lemma {:induction false} AddGrows(held: seq<Entry>, batch: seq<Entry>, h: seq<Entry>, es: seq<Entry>)
    requires Grown(held, batch, h) && forall e :: e in es ==> e in batch
    ensures Grown(held, batch, AddNew(h, es)) && h <= AddNew(h, es) && AllKept(h, AddNew(h, es), es)
  {
    if es != [] {
      var front, last := es[..|es| - 1], es[|es| - 1];
      assert es == front + [last];
      AddGrows(held, batch, h, front);
      var g, more := AddNew(h, front), AddNew(h, es);
      AddOne(held, batch, g, last);
      KeptBefore(h, g, more, last);
      forall e | e in es ensures Kept(h, more, e) {
        if e in front {
          KeptLater(h, g, more, e);
        }
      }
    }
  }

  lemma {:induction false} PickedIn(batch: seq<Entry>, part: seq<nat>)
    ensures forall e :: e in Picked(batch, part) ==> e in batch
  {
    if part != [] {
      PickedIn(batch, part[..|part| - 1]);
    }
  }

  lemma {:induction false} OwedWas(ls: seq<Landing>, e: Event)
    requires e in Owed(ls)
    ensures e in EventsOf(ls)
  {
    var front, l := ls[..|ls| - 1], ls[|ls| - 1];
    if e in Owed(front) {
      OwedWas(front, e);
    }
  }

  /** Every batch for the key is of the entries. */
  ghost predicate OnlyOf(es: seq<Event>, key: SessionKey, entries: seq<Entry>) {
    forall a {:trigger a in es} :: a in es && a.Attempt? && a.key == key ==> forall e :: e in a.batch ==> e in entries
  }

  predicate Stores(a: Event, key: SessionKey) {
    a.Attempt? && a.key == key && !a.t.fails
  }

  lemma FrontOnly(ls: seq<Landing>, key: SessionKey, entries: seq<Entry>)
    requires ls != [] && OnlyOf(EventsOf(ls), key, entries)
    ensures OnlyOf(EventsOf(ls[..|ls| - 1]), key, entries)
  {
    forall a | a in EventsOf(ls[..|ls| - 1]) && a.Attempt? && a.key == key
      ensures forall e :: e in a.batch ==> e in entries
    {
      assert a in EventsOf(ls);
    }
  }

  lemma PartOf(ls: seq<Landing>, key: SessionKey, entries: seq<Entry>)
    requires ls != [] && Possible(ls) && OnlyOf(EventsOf(ls), key, entries)
    ensures forall e :: e in Part(ls[|ls| - 1], key) ==> e in entries
  {
    var front, l := ls[..|ls| - 1], ls[|ls| - 1];
    if l.Late? {
      OwedWas(front, l.e);
    }
    assert l.e in EventsOf(ls);
    if l.e.Attempt? {
      PickedIn(l.e.batch, l.e.t.part);
    }
  }

  lemma {:induction false} LandedGrows(held: seq<Entry>, ls: seq<Landing>, key: SessionKey, entries: seq<Entry>)
    requires OwnUuids(held) && Possible(ls) && OnlyOf(EventsOf(ls), key, entries)
    ensures Grown(held, entries, Landed(held, ls, key))
  {
    if ls == [] {
      assert held[..|held|] == held;
    } else {
      var front := ls[..|ls| - 1];
      FrontOnly(ls, key, entries);
      LandedGrows(held, front, key, entries);
      PartOf(ls, key, entries);
      AddGrows(held, entries, Landed(held, front, key), Part(ls[|ls| - 1], key));
    }
  }

  /** What an attempt that succeeds carries is held from then on. */
  lemma {:induction false} StoredIsKept(held: seq<Entry>, ls: seq<Landing>, key: SessionKey, entries: seq<Entry>,
                                        a: Event, e: Entry)
    requires OwnUuids(held) && Possible(ls) && OnlyOf(EventsOf(ls), key, entries)
    requires a in EventsOf(ls) && Stores(a, key) && e in a.batch
    ensures |held| <= |Landed(held, ls, key)| && Kept(held, Landed(held, ls, key), e)
  {
    var front, l := ls[..|ls| - 1], ls[|ls| - 1];
    var h, after := Landed(held, front, key), Landed(held, ls, key);
    FrontOnly(ls, key, entries);
    LandedGrows(held, front, key, entries);
    PartOf(ls, key, entries);
    AddGrows(held, entries, h, Part(l, key));
    if a in EventsOf(front) {
      StoredIsKept(held, front, key, entries, a, e);
      KeptLater(held, h, after, e);
    } else {
      assert l == Now(a);
      KeptBefore(held, h, after, e);
    }
  }

  // What a mirror sends on, and what then lands.

  ghost predicate Sent(es: seq<Event>, key: SessionKey, e: Entry) {
    exists a :: a in es && Stores(a, key) && e in a.batch
  }

  /** The events carry only these entries for the key, and each in an attempt that succeeds unless they report the
      key. */
  ghost predicate Sends(es: seq<Event>, key: SessionKey, entries: seq<Entry>) {
    OnlyOf(es, key, entries) && (Report(Some(key)) !in es ==> forall e :: e in entries ==> Sent(es, key, e))
  }

  /** Only these entries are added, no uuid is held twice, and all are held unless the key was reported. */
  predicate Safely(held: seq<Entry>, entries: seq<Entry>, after: seq<Entry>, reported: bool) {
    Grown(held, entries, after) && (!reported ==> AllKept(held, after, entries))
  }

  lemma SentLands(held: seq<Entry>, es: seq<Event>, key: SessionKey, entries: seq<Entry>, ls: seq<Landing>)
    requires OwnUuids(held) && Sends(es, key, entries) && Lands(ls, es)
    ensures Safely(held, entries, Landed(held, ls, key), Report(Some(key)) in es)
  {
    LandedGrows(held, ls, key, entries);
    if Report(Some(key)) !in es {
      forall e | e in entries ensures Kept(held, Landed(held, ls, key), e) {
        assert Sent(es, key, e);
        var a :| a in es && Stores(a, key) && e in a.batch;
        StoredIsKept(held, ls, key, entries, a, e);
      }
    }
  }

  lemma TriesSend(c: Config, n: nat, key: SessionKey, batch: seq<Entry>)
    ensures var tries := Tries(c, n, key, batch, 0);
      OnlyOf(tries, key, batch) && (Succeeded(tries) ==> forall e :: e in batch ==> Sent(tries, key, e))
  {
    var tries := Tries(c, n, key, batch, 0);
    AttemptsBounded(c, n, key, batch);
    if Succeeded(tries) {
      var last := tries[|tries| - 1];
      assert last in tries && Stores(last, key);
    }
  }

  /** Retrying adds nothing twice, whatever the adapter held, whatever part of the batch the failed attempts land
      and whenever a timed-out one does: only entries of the batch are added, no uuid is held twice, and an append
      that reports no error leaves every entry of the batch held. */
  lemma ExactlyOnce(c: Config, n: nat, key: SessionKey, batch: seq<Entry>, held: seq<Entry>, ls: seq<Landing>)
    requires OwnUuids(held) && Lands(ls, Tries(c, n, key, batch, 0))
    ensures Safely(held, batch, Landed(held, ls, key), !Succeeded(Tries(c, n, key, batch, 0)))
  {
    TriesSend(c, n, key, batch);
    AttemptsBounded(c, n, key, batch);
    LandedGrows(held, ls, key, batch);
    if Succeeded(Tries(c, n, key, batch, 0)) {
      SentLands(held, Tries(c, n, key, batch, 0), key, batch, ls);
    }
  }

  // Counting, where every entry has a uuid of its own that the adapter does not hold yet.

  /** All have uuids, no two the same, none held yet. */
  predicate Fresh(held: seq<Entry>, es: seq<Entry>) {
    OwnUuids(es) && Uuids(held) !! Uuids(es) && forall e :: e in es ==> Named(e)
  }

  lemma {:induction false} OwnEntry(s: seq<Entry>, d: Entry, e: Entry)
    requires OwnUuids(s) && d in s && e in s && Named(e) && StrAt(d, Field.Uuid) == StrAt(e, Field.Uuid)
    ensures d == e
  {
    var front := s[..|s| - 1];
    assert s == front + [s[|s| - 1]];
    InUuids(front, d);
    InUuids(front, e);
    if d in front && e in front {
      OwnEntry(front, d, e);
    }
  }

  lemma {:induction false} OwnOnce(s: seq<Entry>)
    requires OwnUuids(s) && forall e :: e in s ==> Named(e)
    ensures forall e :: multiset(s)[e] <= 1
  {
    if s != [] {
      var front, last := s[..|s| - 1], s[|s| - 1];
      assert s == front + [last];
      OwnOnce(front);
      InUuids(front, last);
      assert multiset(s) == multiset(front) + multiset{last};
      assert multiset(front)[last] == 0;
    }
  }

  lemma {:induction false} OwnSuffix(a: seq<Entry>, b: seq<Entry>)
    requires OwnUuids(a + b)
    ensures OwnUuids(b)
  {
    if b != [] {
      var ab, front, last := a + b, b[..|b| - 1], b[|b| - 1];
      assert ab[..|ab| - 1] == a + front;
      OwnSuffix(a, front);
      assert StrAt(last, Field.Uuid) !in Uuids(a + front);
      forall e | e in front && Named(e) ensures StrAt(e, Field.Uuid) != StrAt(last, Field.Uuid) {
        InUuids(a + front, e);
      }
    }
  }

  lemma PartOnce(extra: seq<Entry>, es: seq<Entry>)
    requires OwnUuids(extra) && forall e :: e in extra ==> e in es && Named(e)
    ensures multiset(extra) <= multiset(es)
  {
    OwnOnce(extra);
    forall e ensures multiset(extra)[e] <= multiset(es)[e] {
      assert e in extra <==> e in multiset(extra);
      assert e in es <==> e in multiset(es);
    }
  }

  lemma KeptIsAdded(held: seq<Entry>, es: seq<Entry>, after: seq<Entry>, e: Entry)
    requires Fresh(held, es) && Grown(held, es, after) && e in es && Kept(held, after, e)
    ensures e in after[|held|..]
  {
    var d :| d in after && Named(d) && StrAt(d, Field.Uuid) == StrAt(e, Field.Uuid);
    assert after == held + after[|held|..];
    InUuids(es, e);
    InUuids(held, d);
    OwnEntry(es, d, e);
  }

  lemma OnceEach(held: seq<Entry>, es: seq<Entry>, after: seq<Entry>)
    requires Fresh(held, es) && Grown(held, es, after)
    ensures multiset(after) <= multiset(held) + multiset(es)
    ensures AllKept(held, after, es) ==> multiset(after) == multiset(held) + multiset(es)
  {
    var extra := after[|held|..];
    assert after == held + extra;
    OwnSuffix(held, extra);
    PartOnce(extra, es);
    if AllKept(held, after, es) {
      forall e | e in es ensures e in extra && Named(e) {
        KeptIsAdded(held, es, after, e);
      }
      PartOnce(es, extra);
    }
  }

  /** With uuids of their own that are not held yet, an append that reports no error adds each entry of the batch
      once and nothing else, and one that does adds none twice. */
  lemma NewExactlyOnce(c: Config, n: nat, key: SessionKey, batch: seq<Entry>, held: seq<Entry>, ls: seq<Landing>)
    requires OwnUuids(held) && Fresh(held, batch) && Lands(ls, Tries(c, n, key, batch, 0))
    ensures var after := Landed(held, ls, key);
      && held <= after
      && (Succeeded(Tries(c, n, key, batch, 0)) ==> multiset(after) == multiset(held) + multiset(batch))
      && multiset(after) <= multiset(held) + multiset(batch)
  {
    ExactlyOnce(c, n, key, batch, held, ls);
    OnceEach(held, batch, Landed(held, ls, key));
  }

  // Exactly when retrying is exactly-once.

  lemma AttemptsNamed(c: Config, n: nat, key: SessionKey, batch: seq<Entry>, held: seq<Entry>, ls: seq<Landing>)
    requires OwnUuids(held) && Lands(ls, Tries(c, n, key, batch, 0)) && forall e :: e in batch ==> Named(e)
    ensures multiset(Landed(held, ls, key)) <= multiset(held) + multiset(batch)
  {
    var after := Landed(held, ls, key);
    ExactlyOnce(c, n, key, batch, held, ls);
    assert after == held + after[|held|..];
    OwnSuffix(held, after[|held|..]);
    PartOnce(after[|held|..], batch);
  }

  /** Two attempts: the first fails and lands the i-th entry, the second succeeds. */
  function FailsOnce(i: nat): Config {
    Config(false, p => None, es => 0,
           n => if n == 0 then Try(false, true, false, [i]) else Try(false, false, false, []))
  }

  function Twice(i: nat, key: SessionKey, batch: seq<Entry>): seq<Landing> {
    [Now(Attempt(key, batch, FailsOnce(i).world(0))), Now(Attempt(key, batch, FailsOnce(i).world(1)))]
  }

  lemma TwiceLands(i: nat, key: SessionKey, batch: seq<Entry>)
    ensures var tries := Tries(FailsOnce(i), 0, key, batch, 0); Lands(Twice(i, key, batch), tries) && Succeeded(tries)
  {
    var c := FailsOnce(i);
    var a, b := Attempt(key, batch, c.world(0)), Attempt(key, batch, c.world(1));
    MiddleTry(c, 1, key, batch);
    assert Tries(c, 0, key, batch, 0) == [a] + [b];
    assert [Now(a), Now(b)][..1] == [Now(a)] && [Now(a)][..0] == [];
    assert EventsOf([Now(a)]) == [a] && Possible([Now(a)]);
  }

  lemma TwiceLanded(i: nat, key: SessionKey, batch: seq<Entry>, held: seq<Entry>)
    requires i < |batch|
    ensures Landed(held, Twice(i, key, batch), key) == AddNew(AddNew(held, [batch[i]]), batch)
  {
    var ls := Twice(i, key, batch);
    assert ls[..1] == [ls[0]] && [ls[0]][..0] == [];
    assert Landed(held, [ls[0]], key) == AddNew(Landed(held, [], key), Part(ls[0], key));
    PickOne(batch, i);
  }

  lemma PickOne(batch: seq<Entry>, i: nat)
    requires i < |batch|
    ensures Picked(batch, [i]) == [batch[i]]
  {
    assert [i][..0] == [] && Picked(batch, []) == [];
  }

  /** An entry without a uuid is added whenever it comes. */
  lemma {:induction false} NamelessCount(h: seq<Entry>, es: seq<Entry>, e: Entry)
    requires !Named(e)
    ensures multiset(AddNew(h, es))[e] == multiset(h)[e] + multiset(es)[e]
  {
    if es != [] {
      var front, last := es[..|es| - 1], es[|es| - 1];
      NamelessCount(h, front, e);
      assert es == front + [last];
      assert multiset(es) == multiset(front) + multiset{last};
    }
  }

  lemma NamelessTwice(i: nat, key: SessionKey, batch: seq<Entry>, held: seq<Entry>)
    requires i < |batch| && !Named(batch[i])
    ensures var after := multiset(Landed(held, Twice(i, key, batch), key));
      after[batch[i]] == multiset(held)[batch[i]] + multiset(batch)[batch[i]] + 1
  {
    TwiceLanded(i, key, batch, held);
    NamelessCount(held, [batch[i]], batch[i]);
    NamelessCount(AddNew(held, [batch[i]]), batch, batch[i]);
  }

  /** However the attempts go and land, no entry ends more often than it was held and appended. */
  ghost predicate NeverMore(held: seq<Entry>, batch: seq<Entry>) {
    forall c: Config, n: nat, key, ls {:trigger Lands(ls, Tries(c, n, key, batch, 0))} ::
      Lands(ls, Tries(c, n, key, batch, 0)) ==> multiset(Landed(held, ls, key)) <= multiset(held) + multiset(batch)
  }

  /** However they go and land, short of an error, each ends exactly as often. */
  ghost predicate JustOnce(held: seq<Entry>, batch: seq<Entry>) {
    forall c: Config, n: nat, key, ls {:trigger Lands(ls, Tries(c, n, key, batch, 0))} ::
      Lands(ls, Tries(c, n, key, batch, 0)) && Succeeded(Tries(c, n, key, batch, 0))
      ==> multiset(Landed(held, ls, key)) == multiset(held) + multiset(batch)
  }

  const SOME_KEY := SessionKey("", "", "")

  /** No retry stores an entry once too often, in every outcome, exactly when every entry of the batch has a uuid. */
  lemma NeverMoreIff(held: seq<Entry>, batch: seq<Entry>)
    requires OwnUuids(held)
    ensures NeverMore(held, batch) <==> forall e :: e in batch ==> Named(e)
  {
    if forall e :: e in batch ==> Named(e) {
      forall c: Config, n: nat, key, ls | Lands(ls, Tries(c, n, key, batch, 0))
        ensures multiset(Landed(held, ls, key)) <= multiset(held) + multiset(batch)
      {
        AttemptsNamed(c, n, key, batch, held, ls);
      }
    } else {
      var i :| 0 <= i < |batch| && !Named(batch[i]);
      TwiceLands(i, SOME_KEY, batch);
      NamelessTwice(i, SOME_KEY, batch, held);
    }
  }

  /** An attempt that succeeds at once. */
  function Works(): Config {
    Config(false, p => None, es => 0, n => Try(false, false, false, []))
  }

  lemma WorksLands(key: SessionKey, batch: seq<Entry>, held: seq<Entry>)
    ensures var a := Attempt(key, batch, Works().world(0));
      && Lands([Now(a)], Tries(Works(), 0, key, batch, 0)) && Succeeded(Tries(Works(), 0, key, batch, 0))
      && Landed(held, [Now(a)], key) == AddNew(held, batch)
  {
    var a := Attempt(key, batch, Works().world(0));
    assert [Now(a)][..0] == [] && EventsOf([]) == [] && Possible([]);
    assert Tries(Works(), 0, key, batch, 0) == [a];
  }

  lemma FreshEnd(h: seq<Entry>, front: seq<Entry>, last: Entry)
    requires Fresh(h, front) && Named(last) && StrAt(last, Field.Uuid) !in Uuids(h + front)
    ensures Fresh(h, front + [last])
  {
    var es := front + [last];
    assert es[..|es| - 1] == front;
    assert Uuids(es) == Uuids(front) + {StrAt(last, Field.Uuid)};
    assert Uuids(h + front) == Uuids(h) + Uuids(front);
  }

  lemma {:induction false} AddNewLength(h: seq<Entry>, es: seq<Entry>)
    ensures |AddNew(h, es)| <= |h| + |es|
  {
    if es != [] {
      AddNewLength(h, es[..|es| - 1]);
    }
  }

  /** If none of the entries is skipped, they are new and their own. */
  lemma {:induction false} AllAdded(h: seq<Entry>, es: seq<Entry>)
    requires |AddNew(h, es)| == |h| + |es| && forall e :: e in es ==> Named(e)
    ensures Fresh(h, es) && AddNew(h, es) == h + es
  {
    if es == [] {
      assert h + es == h;
    } else {
      var front, last := es[..|es| - 1], es[|es| - 1];
      assert es == front + [last];
      AddNewLength(h, front);
      AllAdded(h, front);
      FreshEnd(h, front, last);
      assert h + front + [last] == h + es;
    }
  }

  /** Every append that reports no error adds each entry of the batch once, in every outcome, exactly when the
      entries have uuids of their own that are not held yet. */
  lemma JustOnceIff(held: seq<Entry>, batch: seq<Entry>)
    requires OwnUuids(held)
    ensures JustOnce(held, batch) <==> Fresh(held, batch)
  {
    if Fresh(held, batch) {
      forall c: Config, n: nat, key, ls | Lands(ls, Tries(c, n, key, batch, 0)) && Succeeded(Tries(c, n, key, batch, 0))
        ensures multiset(Landed(held, ls, key)) == multiset(held) + multiset(batch)
      {
        NewExactlyOnce(c, n, key, batch, held, ls);
      }
    }
    if JustOnce(held, batch) {
      JustOnceNamed(held, batch);
      WorksLands(SOME_KEY, batch, held);
      assert |multiset(AddNew(held, batch))| == |held| + |batch|;
      AllAdded(held, batch);
    }
  }

  lemma JustOnceNamed(held: seq<Entry>, batch: seq<Entry>)
    requires JustOnce(held, batch)
    ensures forall e :: e in batch ==> Named(e)
  {
    forall i | 0 <= i < |batch| ensures Named(batch[i]) {
      if !Named(batch[i]) {
        TwiceLands(i, SOME_KEY, batch);
        NamelessTwice(i, SOME_KEY, batch, held);
      }
    }
  }

  // A flush, and a whole run.

  /** What a path's entries come to under the key. */
  function ForKey(c: Config, path: string, batch: seq<Entry>, key: SessionKey): seq<Entry> {
    if KeyOf(c, path) == Some(key) then batch else []
  }

  lemma GroupSends(c: Config, n: nat, path: string, batch: seq<Entry>, key: SessionKey)
    ensures Sends(Group(c, n, path, batch), key, ForKey(c, path, batch, key))
  {
    var g := Group(c, n, path, batch);
    match KeyOf(c, path) {
      case None =>
      case Some(k) =>
        var tries := Tries(c, n, k, batch, 0);
        AttemptsBounded(c, n, k, batch);
        TriesSend(c, n, k, batch);
        if k == key && Succeeded(tries) {
          assert g == tries;
        } else if k == key {
          assert g[|tries|] == Report(Some(key));
        }
    }
  }

  lemma SendsThen(a: seq<Event>, b: seq<Event>, key: SessionKey, x: seq<Entry>, y: seq<Entry>)
    requires Sends(a, key, x) && Sends(b, key, y)
    ensures Sends(a + b, key, x + y)
  {
    if Report(Some(key)) !in a + b {
      forall e | e in x + y ensures Sent(a + b, key, e) {
        if e in x {
          assert Sent(a, key, e);
          var d :| d in a && Stores(d, key) && e in d.batch;
          assert d in a + b;
        } else {
          assert Sent(b, key, e);
          var d :| d in b && Stores(d, key) && e in d.batch;
          assert d in a + b;
        }
      }
    }
  }

  lemma {:induction false} GroupsSend(c: Config, n: nat, items: seq<Frame>, paths: seq<string>, key: SessionKey)
    ensures Sends(Groups(c, n, items, paths), key, KeyEntries(c, items, paths, key))
  {
    if paths != [] {
      var front, last := paths[..|paths| - 1], paths[|paths| - 1];
      var before, batch := Groups(c, n, items, front), EntriesFor(items, last);
      var m := n + AttemptCount(before);
      GroupsSend(c, n, items, front, key);
      ThenIs(c, n, before, last, batch, m);
      GroupSends(c, m, last, batch, key);
      SendsThen(before, Group(c, m, last, batch), key, KeyEntries(c, items, front, key), ForKey(c, last, batch, key));
    }
  }

  ghost predicate Carries(items: seq<Frame>, p: string, e: Entry) {
    exists f :: f in items && f.path == p && e in f.entries
  }

  lemma {:induction false} InEntriesFor(items: seq<Frame>, p: string, e: Entry)
    ensures e in EntriesFor(items, p) <==> Carries(items, p, e)
  {
    if items != [] {
      var front, last := items[..|items| - 1], items[|items| - 1];
      assert items == front + [last];
      InEntriesFor(front, p, e);
      CarriesEnd(front, last, p, e);
    }
  }

  lemma CarriesEnd(front: seq<Frame>, last: Frame, p: string, e: Entry)
    ensures Carries(front + [last], p, e) <==> Carries(front, p, e) || (last.path == p && e in last.entries)
  {
    if Carries(front, p, e) {
      var f :| f in front && f.path == p && e in f.entries;
      assert f in front + [last];
    }
    assert last in front + [last];
  }

  ghost predicate SomePath(c: Config, items: seq<Frame>, paths: seq<string>, key: SessionKey, e: Entry) {
    exists p :: p in paths && KeyOf(c, p) == Some(key) && Carries(items, p, e)
  }

  lemma {:induction false} InKeyEntries(c: Config, items: seq<Frame>, paths: seq<string>, key: SessionKey, e: Entry)
    ensures e in KeyEntries(c, items, paths, key) <==> SomePath(c, items, paths, key, e)
  {
    if paths != [] {
      var front, last := paths[..|paths| - 1], paths[|paths| - 1];
      assert paths == front + [last];
      InKeyEntries(c, items, front, key, e);
      InEntriesFor(items, last, e);
      if SomePath(c, items, front, key, e) {
        var p :| p in front && KeyOf(c, p) == Some(key) && Carries(items, p, e);
        assert p in paths;
      }
    }
  }

  ghost predicate SomeFrame(c: Config, items: seq<Frame>, key: SessionKey, e: Entry) {
    exists f :: f in items && KeyOf(c, f.path) == Some(key) && e in f.entries
  }

  lemma {:induction false} InArrived(c: Config, items: seq<Frame>, key: SessionKey, e: Entry)
    ensures e in Arrived(c, items, key) <==> SomeFrame(c, items, key, e)
  {
    if items != [] {
      var front, last := items[..|items| - 1], items[|items| - 1];
      assert items == front + [last];
      InArrived(c, front, key, e);
      if SomeFrame(c, front, key, e) {
        var f :| f in front && KeyOf(c, f.path) == Some(key) && e in f.entries;
        assert f in items;
      }
    }
  }

  /** Grouping by path changes the order at most. */
  lemma GroupedSame(c: Config, items: seq<Frame>, key: SessionKey, e: Entry)
    ensures e in KeyEntries(c, items, Paths(items), key) <==> e in Arrived(c, items, key)
  {
    InKeyEntries(c, items, Paths(items), key, e);
    InArrived(c, items, key, e);
    PathsOf(items);
    if SomePath(c, items, Paths(items), key, e) {
      var p :| p in Paths(items) && KeyOf(c, p) == Some(key) && Carries(items, p, e);
      var f :| f in items && f.path == p && e in f.entries;
      assert SomeFrame(c, items, key, e);
    }
    if SomeFrame(c, items, key, e) {
      var f :| f in items && KeyOf(c, f.path) == Some(key) && e in f.entries;
      assert HasPath(items, f.path);
      assert Carries(items, f.path, e);
    }
  }

  lemma FlushSends(c: Config, n: nat, items: seq<Frame>, key: SessionKey)
    ensures Sends(Flushed(c, n, items), key, Arrived(c, items, key))
  {
    GroupsSend(c, n, items, Paths(items), key);
    forall e ensures e in KeyEntries(c, items, Paths(items), key) <==> e in Arrived(c, items, key) {
      GroupedSame(c, items, key, e);
    }
  }

  /** A flush, whatever is pending and whatever the adapter held, however its attempts go and land: under every key
      it adds only what was pending for it, no uuid twice, and if it reports no error for the key it leaves all of
      that held. */
  lemma FlushExactlyOnce(c: Config, n: nat, items: seq<Frame>, key: SessionKey, held: seq<Entry>, ls: seq<Landing>)
    requires OwnUuids(held) && Lands(ls, Flushed(c, n, items))
    ensures Safely(held, Arrived(c, items, key), Landed(held, ls, key), Report(Some(key)) in Flushed(c, n, items))
  {
    FlushSends(c, n, items, key);
    SentLands(held, Flushed(c, n, items), key, Arrived(c, items, key), ls);
  }

  /** What a run has sent on is what it carried but what is still pending. */
  ghost predicate RunSends(c: Config, r: MirrorRun, carried: seq<Frame>, key: SessionKey) {
    && |r.pending| <= |carried| && carried[|carried| - |r.pending|..] == r.pending
    && Sends(r.out, key, Arrived(c, carried[..|carried| - |r.pending|], key))
  }

  lemma {:induction false} ArrivedConcat(c: Config, a: seq<Frame>, b: seq<Frame>, key: SessionKey)
    ensures Arrived(c, a + b, key) == Arrived(c, a, key) + Arrived(c, b, key)
  {
    if b == [] {
      assert a + b == a;
    } else {
      var front, f := b[..|b| - 1], b[|b| - 1];
      ArrivedConcat(c, a, front, key);
      assert (a + b)[..|a + b| - 1] == a + front;
      Associative(Arrived(c, a, key), Arrived(c, front, key), if KeyOf(c, f.path) == Some(key) then f.entries else []);
    }
  }

  /** The run when everything pending is sent on. */
  function AllOut(c: Config, r: MirrorRun): MirrorRun {
    var es := Flushed(c, r.tried, r.pending);
    MirrorRun([], r.tried + AttemptCount(es), r.out + es)
  }

  lemma AllOutSends(c: Config, r: MirrorRun, carried: seq<Frame>, key: SessionKey)
    requires RunSends(c, r, carried, key)
    ensures RunSends(c, AllOut(c, r), carried, key)
  {
    var k := |carried| - |r.pending|;
    FlushSends(c, r.tried, r.pending, key);
    SendsThen(r.out, Flushed(c, r.tried, r.pending), key, Arrived(c, carried[..k], key), Arrived(c, r.pending, key));
    ArrivedConcat(c, carried[..k], r.pending, key);
    assert carried[..k] + r.pending == carried && carried[..|carried|] == carried;
  }

  lemma PendSends(c: Config, r: MirrorRun, carried: seq<Frame>, f: Frame, key: SessionKey)
    requires RunSends(c, r, carried, key)
    ensures RunSends(c, r.(pending := r.pending + [f]), carried + [f], key)
  {
    var k := |carried| - |r.pending|;
    assert (carried + [f])[..k] == carried[..k] && (carried + [f])[k..] == carried[k..] + [f];
  }

  lemma StepIs(c: Config, r: MirrorRun, op: MirrorOp)
    ensures op.FlushNow? ==> StepMirror(c, r, op) == AllOut(c, r)
    ensures op.Arrive? && op.f.entries == [] ==> StepMirror(c, r, op) == r
    ensures op.Arrive? && op.f.entries != [] ==>
      var p := r.(pending := r.pending + [op.f]); StepMirror(c, r, op) == p || StepMirror(c, r, op) == AllOut(c, p)
  {
    assert r.out + [] == r.out;
  }

  lemma StepSends(c: Config, r: MirrorRun, op: MirrorOp, carried: seq<Frame>, key: SessionKey)
    requires RunSends(c, r, carried, key)
    ensures RunSends(c, StepMirror(c, r, op), carried + Taken(op), key)
  {
    assert carried + [] == carried;
    StepIs(c, r, op);
    if op.FlushNow? {
      AllOutSends(c, r, carried, key);
    } else if op.f.entries != [] {
      PendSends(c, r, carried, op.f, key);
      AllOutSends(c, r.(pending := r.pending + [op.f]), carried + [op.f], key);
    }
  }

  lemma {:induction false} EveryRunSends(c: Config, ops: seq<MirrorOp>, key: SessionKey)
    ensures RunSends(c, RunMirror(c, ops), Carried(ops), key)
  {
    if ops != [] {
      EveryRunSends(c, ops[..|ops| - 1], key);
      StepSends(c, RunMirror(c, ops[..|ops| - 1]), ops[|ops| - 1], Carried(ops[..|ops| - 1]), key);
    }
  }

  lemma {:induction false} CarriedArrived(c: Config, ops: seq<MirrorOp>, key: SessionKey)
    ensures Arrived(c, Carried(ops), key) == Arrived(c, Frames(ops), key)
  {
    if ops != [] {
      var front, op := ops[..|ops| - 1], ops[|ops| - 1];
      CarriedArrived(c, front, key);
      if op.Arrive? {
        ArrivedEnd(c, Frames(front), op.f, key);
        ArrivedEnd(c, Carried(front), op.f, key);
      }
      assert Carried(front) + [] == Carried(front) && Frames(front) + [] == Frames(front);
    }
  }

  lemma {:induction false} FlushedRunSends(c: Config, ops: seq<MirrorOp>, key: SessionKey)
    ensures Sends(RunMirror(c, ops + [FlushNow]).out, key, Arrived(c, Frames(ops), key))
  {
    var all := ops + [FlushNow];
    assert all[..|ops|] == ops && Carried(ops) + [] == Carried(ops);
    EveryRunSends(c, all, key);
    CarriedArrived(c, ops, key);
    assert Carried(all)[..|Carried(all)|] == Carried(ops);
  }

  /** The same over every run with a last flush, however attempts go and whenever timed-out ones land, across later
      appends too: an adapter that skips the uuids it holds ends with only what arrived for the key, no uuid twice,
      and with all of it unless the key was reported. */
  lemma {:induction false} RunExactlyOnce(c: Config, ops: seq<MirrorOp>, key: SessionKey, held: seq<Entry>,
                                          ls: seq<Landing>)
    requires OwnUuids(held) && Lands(ls, RunMirror(c, ops + [FlushNow]).out)
    ensures var out := RunMirror(c, ops + [FlushNow]).out;
      Safely(held, Arrived(c, Frames(ops), key), Landed(held, ls, key), Report(Some(key)) in out)
  {
    FlushedRunSends(c, ops, key);
    SentLands(held, RunMirror(c, ops + [FlushNow]).out, key, Arrived(c, Frames(ops), key), ls);
  }

  /** Counted: with uuids of their own that are not held yet, what arrived is stored once each if no error is
      reported for the key, and never twice. */
  lemma {:induction false} RunOnceEach(c: Config, ops: seq<MirrorOp>, key: SessionKey, held: seq<Entry>,
                                       ls: seq<Landing>)
    requires OwnUuids(held) && Fresh(held, Arrived(c, Frames(ops), key))
    requires Lands(ls, RunMirror(c, ops + [FlushNow]).out)
    ensures var out, after := RunMirror(c, ops + [FlushNow]).out, multiset(Landed(held, ls, key));
      var all := multiset(held) + multiset(Arrived(c, Frames(ops), key));
      after <= all && (Report(Some(key)) !in out ==> after == all)
  {
    RunExactlyOnce(c, ops, key, held, ls);
    OnceEach(held, Arrived(c, Frames(ops), key), Landed(held, ls, key));
  }
}
