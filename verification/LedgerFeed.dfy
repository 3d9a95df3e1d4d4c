/**
 * services/ledger-service/src/app.ts /ledger/events and services/dashboard/app/ledger/page.tsx: the
 * append feed, and a page that follows it beside its own fetch of the snapshot.
 */
module LedgerFeed {
  import opened Wrappers
  import opened Mandates
  import opened LedgerStore
  import opened LedgerInvariants

  // ---- The page --------------------------------------------------------------------------------

  /** The dashboard's `upsertIntent`: the new view first, then all others. */
  function Upsert(page: seq<IntentView>, view: IntentView): seq<IntentView> {
    [view] + Others(page, view.requestId)
  }

  function Others(page: seq<IntentView>, id: string): seq<IntentView> {
    if page == [] then [] else
    if page[0].requestId == id then Others(page[1..], id) else [page[0]] + Others(page[1..], id)
  }

  /** The page after a run of append events. */
  function Replay(page: seq<IntentView>, events: seq<Event>): seq<IntentView> {
    if events == [] then page else
      var before := Replay(page, events[..|events| - 1]);
      match events[|events| - 1].intent
      case None => before
      case Some(view) => Upsert(before, view)
  }

  /** What the page lists of a request. */
  function Look(page: seq<IntentView>, id: string): Option<IntentView> {
    if page == [] then None else if page[0].requestId == id then Some(page[0]) else Look(page[1..], id)
  }

  predicate NoneTwice(page: seq<IntentView>) {
    forall j, k :: 0 <= j < k < |page| ==> page[j].requestId != page[k].requestId
  }

  /** The view of an intent as it stands. */
  function Current(s: Ledger, id: string): Option<IntentView> {
    if id in s.intents then Some(IntentViewOf(s.intents[id])) else None
  }

  /** The page lists each intent of the ledger once, as it stands, and nothing else. */
  ghost predicate Shows(page: seq<IntentView>, s: Ledger) {
    NoneTwice(page) && forall id :: Look(page, id) == Current(s, id)
  }

  /** The view says of the intent what it is: every field it has, under its own name. */
  predicate Tells(v: IntentView, i: Intent) {
    && v.requestId == i.requestId && v.mandateId == i.mandateId && v.agentId == i.agentId
    && v.instruction == i.instruction && v.instructionHash == i.instructionHash && v.createdAt == i.createdAt
    && v.state == i.state && v.decision == i.decision && v.decidedAt == i.decidedAt
    && v.policyHash == (if Truthy(i.policyHash) then i.policyHash else None)
    && v.merchantDomain == (if Truthy(i.merchantDomain) then i.merchantDomain else None)
    && v.nonce == i.nonce && (v.nonceReserved <==> i.nonce.Some? && !i.nonceReleased)
    && v.spend == i.spend && v.capture == i.capture
    && (v.challenge.Some? <==> i.challenge.Some?)
    && (v.challenge.Some? ==>
          && v.challenge.value.payTo == i.challenge.value.payTo && v.challenge.value.asset == i.challenge.value.asset
          && v.challenge.value.chainId == i.challenge.value.chainId && v.challenge.value.amount == i.challenge.value.amount)
    && (v.settlement.Some? <==> i.settlement.Some?)
    && (v.settlement.Some? ==>
          && v.settlement.value.settlementTx == i.settlement.value.settlementTx
          && v.settlement.value.blockNumber == i.settlement.value.blockNumber
          && v.settlement.value.cardOpaqueId == i.settlement.value.cardOpaqueId)
  }

  /** The page lists exactly the intents of the ledger, each once and as it is. */
  ghost predicate Lists(page: seq<IntentView>, s: Ledger) {
    && (forall j, k :: 0 <= j < k < |page| ==> page[j].requestId != page[k].requestId)
    && (forall id :: id in s.intents <==> exists k :: 0 <= k < |page| && page[k].requestId == id)
    && (forall k :: 0 <= k < |page| ==> page[k].requestId in s.intents && Tells(page[k], s.intents[page[k].requestId]))
  }

  lemma ViewTells(i: Intent)
    ensures Tells(IntentViewOf(i), i)
  {
  }

  lemma ShownIsListed(page: seq<IntentView>, s: Ledger)
    requires Shows(page, s)
    ensures Lists(page, s)
  {
    hide Tells;
    hide IntentViewOf;
    forall id | id in s.intents
      ensures exists k :: 0 <= k < |page| && page[k].requestId == id
    {
      LookFinds(page, id);
    }
    forall k | 0 <= k < |page|
      ensures page[k].requestId in s.intents && Tells(page[k], s.intents[page[k].requestId])
    {
      var id := page[k].requestId;
      LookFinds(page, id);
      assert Look(page, id) == Some(page[k]);
      ViewTells(s.intents[id]);
    }
  }

  /** The last view that a run of events carries of a request. */
  function LastView(events: seq<Event>, id: string): Option<IntentView> {
    if events == [] then None else
      var last := events[|events| - 1].intent;
      if last.Some? && last.value.requestId == id then last else LastView(events[..|events| - 1], id)
  }

  lemma {:induction false} LookFinds(page: seq<IntentView>, id: string)
    ensures Look(page, id).None? <==> forall k :: 0 <= k < |page| ==> page[k].requestId != id
    ensures Look(page, id).Some? ==> Look(page, id).value in page && Look(page, id).value.requestId == id
  {
    if page != [] {
      LookFinds(page[1..], id);
      assert page == [page[0]] + page[1..];
    }
  }

  lemma {:induction false} OthersAreKept(page: seq<IntentView>, gone: string, id: string)
    requires NoneTwice(page)
    ensures NoneTwice(Others(page, gone)) && Look(Others(page, gone), id) == if id == gone then None else Look(page, id)
    ensures forall v :: v in Others(page, gone) ==> v in page && v.requestId != gone
  {
    if page != [] {
      OthersAreKept(page[1..], gone, id);
      var rest := Others(page[1..], gone);
      assert page == [page[0]] + page[1..];
      assert ([page[0]] + rest)[1..] == rest;
      forall k | 0 <= k < |rest|
        ensures rest[k].requestId != page[0].requestId
      {
        assert rest[k] in page[1..];
      }
    }
  }

  lemma UpsertLooks(page: seq<IntentView>, view: IntentView, id: string)
    requires NoneTwice(page)
    ensures NoneTwice(Upsert(page, view))
    ensures Look(Upsert(page, view), id) == if id == view.requestId then Some(view) else Look(page, id)
  {
    OthersAreKept(page, view.requestId, id);
    var rest := Others(page, view.requestId);
    assert ([view] + rest)[1..] == rest;
    forall k | 0 <= k < |rest|
      ensures rest[k].requestId != view.requestId
    {
      assert rest[k] in rest;
    }
  }

  /** A replay leaves of each request the last view it carries, or what was there before. */
  lemma {:induction false} ReplayLooks(page: seq<IntentView>, events: seq<Event>, id: string)
    requires NoneTwice(page)
    ensures NoneTwice(Replay(page, events))
    ensures Look(Replay(page, events), id)
            == if LastView(events, id).Some? then LastView(events, id) else Look(page, id)
  {
    if events != [] {
      var front := events[..|events| - 1];
      ReplayLooks(page, front, id);
      match events[|events| - 1].intent {
        case None =>
        case Some(view) => UpsertLooks(Replay(page, front), view, id);
      }
    }
  }

  lemma {:induction false} LastViewOfTwo(a: seq<Event>, b: seq<Event>, id: string)
    ensures LastView(a + b, id) == if LastView(b, id).Some? then LastView(b, id) else LastView(a, id)
  {
    if b == [] {
      assert a + b == a;
    } else {
      LastViewOfTwo(a, b[..|b| - 1], id);
      assert (a + b)[..|a + b| - 1] == a + b[..|b| - 1];
    }
  }

  // ---- What the ledger announces ---------------------------------------------------------------

  /** An outcome announces the one record it stores, and changes no other. */
  lemma OutcomeAnnounces(s: Ledger, o: Outcome, now: Time, id: string)
    ensures var t := Apply(s, o, now);
            var added := t.events[|s.events|..];
            && s.events <= t.events
            && Current(t, id) == if LastView(added, id).Some? then LastView(added, id) else Current(s, id)
  {
    var t := Apply(s, o, now);
    var added := t.events[|s.events|..];
    if Stored(o).Some? {
      var i := Stored(o).value;
      assert IntentViewOf(i).requestId == i.requestId;
      hide IntentViewOf;
      assert added == [t.events[|s.events|]] && added[..0] == [];
      assert LastView(added[..0], id) == None;
    } else {
      hide IntentViewOf;
      assert |added| <= 1 && t.intents == s.intents;
      assert added == [] || added[..0] == [];
    }
  }

  /** The last word of the feed on each request is its current view. */
  ghost predicate FeedCurrent(s: Ledger) {
    forall id :: LastView(s.events, id) == Current(s, id)
  }

  lemma StepIsAnnounced(s: Ledger, q: Request, now: Time, keccak: Keccak)
    requires FeedCurrent(s)
    ensures FeedCurrent(Handle(s, q, now, keccak)) && s.events <= Handle(s, q, now, keccak).events
  {
    var o := Route(s, q, now, keccak);
    hide Route;
    var t := Apply(s, o, now);
    hide Apply;
    hide Current;
    OutcomeAnnounces(s, o, now, "");
    forall id
      ensures LastView(t.events, id) == Current(t, id)
    {
      OutcomeAnnounces(s, o, now, id);
      LastViewOfTwo(s.events, t.events[|s.events|..], id);
      assert t.events == s.events + t.events[|s.events|..];
    }
  }

  lemma {:induction false} FeedIsCurrent(requests: seq<Timed>, keccak: Keccak)
    ensures FeedCurrent(Run(requests, keccak))
  {
    if requests != [] {
      FeedIsCurrent(requests[..|requests| - 1], keccak);
      hide Handle;
      hide FeedCurrent;
      var last := requests[|requests| - 1];
      StepIsAnnounced(Run(requests[..|requests| - 1], keccak), last.request, last.now, keccak);
    }
  }

  lemma {:induction false} FeedGrowsAlong(earlier: seq<Timed>, later: seq<Timed>, keccak: Keccak)
    ensures Run(earlier, keccak).events <= Run(earlier + later, keccak).events
  {
    RunExtends(earlier, later, keccak);
    hide Run;
    hide Kept;
  }

  /** Each step emits at most one event, and replaying it keeps the page showing the ledger. */
  lemma StepIsShown(page: seq<IntentView>, s: Ledger, q: Request, now: Time, keccak: Keccak)
    requires Shows(page, s)
    ensures var t := Handle(s, q, now, keccak);
            s.events <= t.events && |t.events| <= |s.events| + 1 && Shows(Replay(page, t.events[|s.events|..]), t)
  {
    var o := Route(s, q, now, keccak);
    hide Route;
    var t := Apply(s, o, now);
    assert |t.events| <= |s.events| + 1;
    var added := t.events[|s.events|..];
    hide Apply;
    hide Current;
    forall id
      ensures NoneTwice(Replay(page, added)) && Look(Replay(page, added), id) == Current(t, id)
    {
      OutcomeAnnounces(s, o, now, id);
      ReplayLooks(page, added, id);
    }
    OutcomeAnnounces(s, o, now, "");
    hide Replay;
  }

  // ---- A subscriber --------------------------------------------------------------------------------

  /** The ledger at two moments of one run: its feed only grows, and is current at both. */
  lemma TwoMoments(earlier: seq<Timed>, later: seq<Timed>, keccak: Keccak, id: string)
    ensures var before, now := Run(earlier, keccak), Run(earlier + later, keccak);
            && before.events <= now.events
            && Current(now, id) == LastView(now.events, id) && Current(before, id) == LastView(before.events, id)
  {
    FeedGrowsAlong(earlier, later, keccak);
    FeedIsCurrent(earlier, keccak);
    FeedIsCurrent(earlier + later, keccak);
    hide Run;
    hide Current;
  }

  /**
   * A subscriber that joins after any run with a page showing that ledger, and replays what the
   * feed then emits, always shows the current ledger; the event numbers are 1, 2, 3, …
   */
  lemma FeedIsAReplica(page: seq<IntentView>, earlier: seq<Timed>, later: seq<Timed>, keccak: Keccak)
    requires Shows(page, Run(earlier, keccak))
    ensures var joined, current := Run(earlier, keccak), Run(earlier + later, keccak);
            && joined.events <= current.events
            && Shows(Replay(page, current.events[|joined.events|..]), current)
            && Lists(Replay(page, current.events[|joined.events|..]), current)
            && forall k :: 0 <= k < |current.events| ==> current.events[k].number == k + 1
  {
    var joined, current := Run(earlier, keccak), Run(earlier + later, keccak);
    EventsAreNumbered(earlier + later, keccak);
    TwoMoments(earlier, later, keccak, "");
    var added := current.events[|joined.events|..];
    assert current.events == joined.events + added;
    forall id
      ensures NoneTwice(Replay(page, added)) && Look(Replay(page, added), id) == Current(current, id)
    {
      TwoMoments(earlier, later, keccak, id);
      LastViewOfTwo(joined.events, added, id);
      hide Run;
      hide Current;
      ReplayLooks(page, added, id);
    }
    hide Run;
    hide Replay;
    ShownIsListed(Replay(page, added), current);
  }

  lemma EventsAreNumbered(requests: seq<Timed>, keccak: Keccak)
    ensures var s := Run(requests, keccak);
            forall k :: 0 <= k < |s.events| ==> s.events[k].number == k + 1
  {
    RunIsSound(requests, keccak);
    hide Run;
    hide RecordsSound;
    hide NothingElse;
    hide Ordered;
  }

  /** The snapshot sent on joining: the views of all intents. */
  function Snapshot(s: Ledger): (page: seq<IntentView>)
    requires forall id :: id in s.order ==> id in s.intents
  {
    seq(|s.order|, k requires 0 <= k < |s.order| => assert s.order[k] in s.order; IntentViewOf(s.intents[s.order[k]]))
  }

  lemma SnapshotShows(s: Ledger, keccak: Keccak)
    requires Sound(s, keccak)
    ensures Shows(Snapshot(s), s) && Lists(Snapshot(s), s)
  {
    var page := Snapshot(s);
    forall k | 0 <= k < |page|
      ensures s.order[k] in s.intents && page[k] == IntentViewOf(s.intents[s.order[k]])
      ensures page[k].requestId == s.order[k]
    {
      assert s.order[k] in s.order;
      var id := s.order[k];
      assert RecordSound(s.intents[id], id, LastEntry(s.log, id), Reserved(s.events, id), keccak);
    }
    hide RecordsSound;
    hide IntentViewOf;
    forall id
      ensures Look(page, id) == Current(s, id)
    {
      LookFinds(page, id);
      if id in s.intents {
        assert id in s.order;
        var k :| 0 <= k < |s.order| && s.order[k] == id;
        assert page[k].requestId == id;
      }
    }
    hide Snapshot;
    ShownIsListed(page, s);
  }

  /** The snapshot and the events after it: what a subscriber is sent keeps it a replica. */
  lemma SubscriberIsAReplica(earlier: seq<Timed>, later: seq<Timed>, keccak: Keccak)
    ensures var joined, current := Run(earlier, keccak), Run(earlier + later, keccak);
            && (forall id :: id in joined.order ==> id in joined.intents) && joined.events <= current.events
            && Shows(Replay(Snapshot(joined), current.events[|joined.events|..]), current)
            && Lists(Replay(Snapshot(joined), current.events[|joined.events|..]), current)
  {
    RunIsSound(earlier, keccak);
    SnapshotShows(Run(earlier, keccak), keccak);
    FeedIsAReplica(Snapshot(Run(earlier, keccak)), earlier, later, keccak);
    hide Run;
    hide Shows;
    hide RecordsSound;
    hide NothingElse;
  }

  // ---- The dashboard page, which also fetches ------------------------------------------------------

  /** What reaches the page: the stream's snapshot, an append event, or the answer to its own fetch. */
  datatype PageInput = Snapshotted(intents: seq<IntentView>) | Appended(event: Event) | Fetched(intents: seq<IntentView>)

  function PageAfter(inputs: seq<PageInput>): seq<IntentView> {
    if inputs == [] then [] else
      var before := PageAfter(inputs[..|inputs| - 1]);
      match inputs[|inputs| - 1]
      case Snapshotted(intents) => intents
      case Fetched(intents) => intents
      case Appended(event) => if event.intent.Some? then Upsert(before, event.intent.value) else before
  }

  function Appends(events: seq<Event>): (inputs: seq<PageInput>)
    ensures |inputs| == |events|
  {
    seq(|events|, k requires 0 <= k < |events| => Appended(events[k]))
  }

  lemma {:induction false} AppendsReplay(inputs: seq<PageInput>, events: seq<Event>)
    ensures PageAfter(inputs + Appends(events)) == Replay(PageAfter(inputs), events)
  {
    var all := inputs + Appends(events);
    if events == [] {
      assert all == inputs;
    } else {
      var front := events[..|events| - 1];
      AppendsReplay(inputs, front);
      assert all[..|all| - 1] == inputs + Appends(front);
    }
  }

  /**
   * The page of a run: it joined the stream at one moment, and `p` events of the ledger had reached
   * it when the answer to its fetch, taken by the ledger at another moment, replaced the list.
   */
  function FetchedPage(joined: Ledger, fetched: Ledger, current: Ledger, p: nat): seq<PageInput>
    requires |joined.events| <= p <= |current.events|
    requires forall id :: id in joined.order ==> id in joined.intents
    requires forall id :: id in fetched.order ==> id in fetched.intents
  {
    [Snapshotted(Snapshot(joined))] + Appends(current.events[|joined.events|..p])
    + [Fetched(Snapshot(fetched))] + Appends(current.events[p..])
  }

  lemma FetchedPageReplays(joined: Ledger, fetched: Ledger, current: Ledger, p: nat)
    requires |joined.events| <= p <= |current.events|
    requires forall id :: id in joined.order ==> id in joined.intents
    requires forall id :: id in fetched.order ==> id in fetched.intents
    ensures PageAfter(FetchedPage(joined, fetched, current, p)) == Replay(Snapshot(fetched), current.events[p..])
  {
    var before := [Snapshotted(Snapshot(joined))] + Appends(current.events[|joined.events|..p]);
    var inputs := before + [Fetched(Snapshot(fetched))];
    assert inputs[..|inputs| - 1] == before;
    AppendsReplay(inputs, current.events[p..]);
  }

  /** A request has been announced since the answer arrived, or has not changed since it was given. */
  predicate UpToDate(since: seq<Event>, fetched: Ledger, current: Ledger, id: string) {
    LastView(since, id).Some? || Current(fetched, id) == Current(current, id)
  }

  /**
   * After the fetch has answered, the page shows the current ledger exactly when every request that
   * changed since the ledger answered has been announced again since the answer arrived.
   */
  lemma FetchedPageShowsExactlyWhen(a: seq<Timed>, b: seq<Timed>, c: seq<Timed>, d: seq<Timed>, p: nat, keccak: Keccak)
    requires a + b == c + d
    requires |Run(a, keccak).events| <= p <= |Run(a + b, keccak).events|
    ensures var joined, fetched, current := Run(a, keccak), Run(c, keccak), Run(a + b, keccak);
            && (forall id :: id in joined.order ==> id in joined.intents)
            && (forall id :: id in fetched.order ==> id in fetched.intents)
            && (Shows(PageAfter(FetchedPage(joined, fetched, current, p)), current) <==>
                  forall id :: UpToDate(current.events[p..], fetched, current, id))
  {
    var joined, fetched, current := Run(a, keccak), Run(c, keccak), Run(a + b, keccak);
    RunIsSound(a, keccak);
    RunIsSound(c, keccak);
    SnapshotShows(fetched, keccak);
    FeedIsCurrent(a + b, keccak);
    assert Ordered(joined) && Ordered(fetched);
    FetchedPageReplays(joined, fetched, current, p);
    hide Run;
    hide Sound;
    FetchedListShows(Snapshot(fetched), fetched, current, p);
    hide Shows;
    hide UpToDate;
    hide FeedCurrent;
  }

  lemma FetchedListShows(page: seq<IntentView>, fetched: Ledger, current: Ledger, p: nat)
    requires Shows(page, fetched) && FeedCurrent(current) && p <= |current.events|
    ensures Shows(Replay(page, current.events[p..]), current) <==>
            forall id :: UpToDate(current.events[p..], fetched, current, id)
  {
    var added := current.events[p..];
    var shown := Replay(page, added);
    assert current.events == current.events[..p] + added;
    ReplayLooks(page, added, "");
    forall id
      ensures (Look(shown, id) == Current(current, id)) == UpToDate(added, fetched, current, id)
    {
      ReplayLooks(page, added, id);
      LastViewOfTwo(current.events[..p], added, id);
    }
    hide Replay;
    hide Look;
    hide Current;
    hide UpToDate;
    if forall id :: UpToDate(added, fetched, current, id) {
      assert forall id :: Look(shown, id) == Current(current, id);
    } else {
      var id :| !UpToDate(added, fetched, current, id);
      assert Look(shown, id) != Current(current, id);
    }
  }

  const CREATION: Timed := Timed(CreateIntent(Some("r"), Some("m"), Some("a"), Some("buy"), Some(0)), 0)

  /** The page can be stale: the answer of before a creation arrives after its announcement. */
  lemma LateFetchIsStale(keccak: Keccak)
    ensures var current := Run([CREATION], keccak);
            && Run([], keccak) == EMPTY && |current.events| == 1
            && PageAfter(FetchedPage(EMPTY, EMPTY, current, 1)) == [] && !Shows([], current)
  {
    var requests := [CREATION];
    assert requests[..|requests| - 1] == [];
    assert Run([], keccak) == EMPTY;
    var current := Run(requests, keccak);
    assert current == Handle(EMPTY, CREATION.request, 0, keccak);
    assert "r" in current.intents;
    hide Handle;
    FetchedPageReplays(EMPTY, EMPTY, current, 1);
    assert current.events[1..] == [];
    assert Look([], "r") != Current(current, "r");
  }

  /** In particular a fetch that overtakes no event leaves the page a replica. */
  lemma PunctualFetchIsHarmless(a: seq<Timed>, b: seq<Timed>, c: seq<Timed>, d: seq<Timed>, p: nat, keccak: Keccak)
    requires a + b == c + d
    requires |Run(a, keccak).events| <= p <= |Run(c, keccak).events| <= |Run(a + b, keccak).events|
    requires forall id :: id in Run(a, keccak).order ==> id in Run(a, keccak).intents
    requires forall id :: id in Run(c, keccak).order ==> id in Run(c, keccak).intents
    ensures Shows(PageAfter(FetchedPage(Run(a, keccak), Run(c, keccak), Run(a + b, keccak), p)), Run(a + b, keccak))
  {
    var fetched, current := Run(c, keccak), Run(a + b, keccak);
    FetchedPageShowsExactlyWhen(a, b, c, d, p, keccak);
    hide Shows;
    hide PageAfter;
    hide UpToDate;
    forall id
      ensures UpToDate(current.events[p..], fetched, current, id)
    {
      TwoMoments(c, d, keccak, id);
      hide Run;
      NotOvertaken(fetched, current, p, id);
    }
    hide Run;
  }

  lemma NotOvertaken(fetched: Ledger, current: Ledger, p: nat, id: string)
    requires p <= |fetched.events| && fetched.events <= current.events
    requires Current(current, id) == LastView(current.events, id) && Current(fetched, id) == LastView(fetched.events, id)
    ensures UpToDate(current.events[p..], fetched, current, id)
  {
    hide Current;
    var between, since := current.events[p..|fetched.events|], current.events[|fetched.events|..];
    assert current.events == fetched.events + since && current.events[p..] == between + since;
    LastViewOfTwo(fetched.events, since, id);
    LastViewOfTwo(between, since, id);
  }
}
