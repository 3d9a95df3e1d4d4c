/**
 * The rolling window under concurrency: where a payment stands between its window read and its
 * record, what its read saw, and why the last read of any window bounds that window's spending.
 */
module RollingWindow {
  import opened Wrappers
  import opened Mandates
  import opened LedgerStore
  import opened LedgerInvariants
  import opened PolicyChecks
  import opened SigningInvariant
  import P = SigningProtocol

  /** One mandate that does not change, and how many of its payments may be in flight at once. */
  datatype Terms = Terms(mandateId: string, mandate: Mandate, inFlight: nat)

  // ---- Where a payment of the mandate stands ---------------------------------------------------

  predicate Ours(h: Handler, t: Terms) {
    h.call.Payment? && h.call.mandateId == t.mandateId
  }

  /** The window has not been read for it. */
  predicate Unread(h: Handler) {
    h.point.AwaitIntent? || h.point.AwaitPolicy? || (h.point.AwaitWindow? && h.answer.None?)
  }

  /** It has read the window, and may yet record a signature. */
  predicate InFlight(h: Handler) {
    if h.point.AwaitSignedRecord? then h.answer.None?
    else h.live && (h.point.AwaitRegistry? || h.point.AwaitApprovalRead? || h.point.AwaitReservation?
                    || h.point.AwaitSigner? || (h.point.AwaitWindow? && h.answer.Some?))
  }

  /** The ledger has its signature on record. */
  predicate Recorded(h: Handler) {
    (h.point.AwaitSignedRecord? && h.answer.Some?) || (h.point.Finished? && h.point.reply.SignedReply?)
  }

  predicate Alive(h: Handler) {
    InFlight(h) || Recorded(h)
  }

  function InFlightOf(handlers: map<nat, Handler>, t: Terms): set<nat> {
    set a | a in handlers && Ours(handlers[a], t) && InFlight(handlers[a])
  }

  function RecordedOf(handlers: map<nat, Handler>, t: Terms): set<nat> {
    set a | a in handlers && Ours(handlers[a], t) && Recorded(handlers[a])
  }

  /** When the ledger says the request of a handler was decided. */
  function DecidedAt(w: World, a: nat): Time {
    if a in w.handlers && w.handlers[a].call.requestId in w.ledger.intents
    then w.ledger.intents[w.handlers[a].call.requestId].decidedAt.GetOr(0) else 0
  }

  function Amount(handlers: map<nat, Handler>, a: nat): nat {
    if a in handlers && handlers[a].call.Payment? then handlers[a].call.requestedAmount else 0
  }

  /** The payments signed without a human, decided between two moments. */
  function SignedBetween(w: World, t: Terms, from: Time, to: Time): set<nat> {
    set a | a in RecordedOf(w.handlers, t) && from <= DecidedAt(w, a) <= to
  }

  ghost function Total(handlers: map<nat, Handler>, s: set<nat>): nat {
    if s == {} then 0 else
      var a := Pick(s);
      Amount(handlers, a) + Total(handlers, s - {a})
  }

  ghost function Pick(s: set<nat>): (a: nat)
    requires s != {}
    ensures a in s
  {
    var a :| a in s; a
  }

  // ---- Sums over sets of handlers --------------------------------------------------------------

  lemma {:induction false} TotalWithout(handlers: map<nat, Handler>, s: set<nat>, a: nat)
    requires a in s
    ensures Total(handlers, s) == Amount(handlers, a) + Total(handlers, s - {a})
    decreases |s|
  {
    var p := Pick(s);
    if p != a {
      TotalWithout(handlers, s - {p}, a);
      TotalWithout(handlers, s - {a}, p);
      assert s - {p} - {a} == s - {a} - {p};
    }
  }

  lemma {:induction false} TotalOfUnion(handlers: map<nat, Handler>, s: set<nat>, u: set<nat>)
    ensures Total(handlers, s + u) <= Total(handlers, s) + Total(handlers, u)
    decreases |u|
  {
    if u == {} {
      assert s + u == s;
    } else {
      var a := Pick(u);
      if a in s {
        assert s + u == s + (u - {a});
        TotalOfUnion(handlers, s, u - {a});
      } else {
        TotalWithout(handlers, s + u, a);
        assert s + u - {a} == s + (u - {a});
        TotalOfUnion(handlers, s, u - {a});
      }
    }
  }

  lemma {:induction false} TotalIsMonotone(handlers: map<nat, Handler>, s: set<nat>, u: set<nat>)
    requires s <= u
    ensures Total(handlers, s) <= Total(handlers, u)
    decreases |s|
  {
    if s != {} {
      var a := Pick(s);
      TotalWithout(handlers, u, a);
      TotalIsMonotone(handlers, s - {a}, u - {a});
    }
  }

  lemma {:induction false} TotalIsBounded(handlers: map<nat, Handler>, s: set<nat>, most: nat)
    requires forall a :: a in s ==> Amount(handlers, a) <= most
    ensures Total(handlers, s) <= |s| * most
    decreases |s|
  {
    if s != {} {
      var a := Pick(s);
      TotalIsBounded(handlers, s - {a}, most);
      OneLess(|s|, |s - {a}|, most);
    }
  }

  lemma OneLess(n: nat, m: nat, most: nat)
    requires n == m + 1
    ensures n * most == most + m * most
  {
  }

  lemma {:induction false} TotalDependsOnAmounts(handlers: map<nat, Handler>, after: map<nat, Handler>, s: set<nat>)
    requires forall a :: a in s ==> Amount(after, a) == Amount(handlers, a)
    ensures Total(after, s) == Total(handlers, s)
    decreases |s|
  {
    if s != {} {
      TotalDependsOnAmounts(handlers, after, s - {Pick(s)});
    }
  }

  // ---- What is observed along a run ------------------------------------------------------------

  /**
   * One handler's window read: its place in the order of reads, its moment and answer, and the
   * payments that were then in flight or recorded; those recorded inside the window are counted.
   */
  datatype Read = Read(n: nat, at: Time, usage: Usage, others: set<nat>, recorded: set<nat>, counted: set<nat>)

  datatype Seen = Seen(world: World, readings: map<nat, Read>)

  function WindowMs(t: Terms): int {
    t.mandate.windowSeconds * 1000
  }

  /** An amount that climbed the ladder of checks with this usage. */
  predicate Passed(amount: nat, r: Read, t: Terms) {
    && amount <= Ceiling(t.mandate)
    && r.usage.spent + amount <= t.mandate.maxPerWindow
    && r.usage.cardCount < t.mandate.maxCardsPerWindow
  }

  /** A recorded payment is one that the window counts. */
  predicate Entered(h: Handler, s: Ledger, t: Terms)
    requires h.call.Payment?
  {
    var id := h.call.requestId;
    && id in s.intents && s.intents[id].mandateId == t.mandateId
    && s.intents[id].decision == Some(Signed) && s.intents[id].decidedAt.Some?
    && s.intents[id].challenge.Some? && s.intents[id].challenge.value.amount == h.call.requestedAmount
  }

  /** What is known of a handler alive since its read. */
  predicate Faithful(h: Handler, a: nat, o: Seen, t: Terms)
    requires h.call.Payment?
  {
    && a in o.readings && o.readings[a].at <= o.world.clock
    && (match h.point
        case AwaitWindow(_, m) => m == t.mandate && h.answer == Some(P.WindowRead(o.readings[a].usage))
        case AwaitRegistry(_, m, usage) => m == t.mandate && usage == o.readings[a].usage
        case AwaitSignedRecord(_, at) =>
          Passed(h.call.requestedAmount, o.readings[a], t) && o.readings[a].at <= at <= o.world.clock
        case _ => Passed(h.call.requestedAmount, o.readings[a], t))
    && (Recorded(h) ==> Entered(h, o.world.ledger, t) && o.readings[a].at <= DecidedAt(o.world, a) <= o.world.clock)
  }

  /** An earlier reader that is still alive was visible, or in flight, at each later read. */
  ghost predicate Overlap(o: Seen) {
    forall a, b :: a in o.readings && b in o.readings && a in o.world.handlers && Alive(o.world.handlers[a])
                   && o.readings[a].n < o.readings[b].n ==>
      a in o.readings[b].others || a in o.readings[b].recorded
  }

  ghost predicate ReadSound(r: Read, o: Seen, t: Terms) {
    && r.n < |o.readings| && |r.others| < t.inFlight && r.counted <= r.recorded
    && r.recorded <= RecordedOf(o.world.handlers, t)
    && Total(o.world.handlers, r.counted) <= r.usage.spent && |r.counted| <= r.usage.cardCount
    && forall a :: a in r.recorded && a !in r.counted ==> DecidedAt(o.world, a) < r.at - WindowMs(t)
  }

  ghost predicate ReadsSound(o: Seen, t: Terms) {
    && (forall a :: a in o.readings ==> ReadSound(o.readings[a], o, t))
    && (forall a, b :: a in o.readings && b in o.readings && a != b ==> o.readings[a].n != o.readings[b].n)
  }

  ghost predicate AliveFaithful(o: Seen, t: Terms) {
    forall a :: a in o.world.handlers && Ours(o.world.handlers[a], t) && Alive(o.world.handlers[a]) ==>
      Faithful(o.world.handlers[a], a, o, t)
  }

  // ---- The bound ---------------------------------------------------------------------------------

  lemma {:induction false} LastReader(readings: map<nat, Read>, s: set<nat>) returns (b: nat)
    requires s != {} && forall a :: a in s ==> a in readings
    ensures b in s && forall a :: a in s ==> readings[a].n <= readings[b].n
    decreases |s|
  {
    var x := Pick(s);
    if s == {x} {
      b := x;
    } else {
      var y := LastReader(readings, s - {x});
      b := if readings[y].n < readings[x].n then x else y;
      forall a | a in s
        ensures readings[a].n <= readings[b].n
      {
        assert a == x || a in s - {x};
      }
    }
  }

  /** Payments alive since their reads, none read later than the window ends or recorded before it starts. */
  ghost predicate WindowSet(o: Seen, s: set<nat>, from: Time, t: Terms) {
    forall a :: a in s ==>
      && a in o.world.handlers && a in o.readings && InWindow(o.world.handlers[a], o.readings[a], DecidedAt(o.world, a), from, t)
  }

  predicate InWindow(h: Handler, r: Read, decidedAt: Time, from: Time, t: Terms) {
    && Ours(h, t) && Alive(h) && Passed(h.call.requestedAmount, r, t) && r.at <= from + WindowMs(t)
    && (Recorded(h) ==> decidedAt >= from)
  }

  lemma SignedIsWindowSet(o: Seen, t: Terms, from: Time)
    requires AliveFaithful(o, t)
    ensures WindowSet(o, SignedBetween(o.world, t, from, from + WindowMs(t)), from, t)
  {
    hide Passed;
    hide DecidedAt;
    hide Entered;
    forall a | a in SignedBetween(o.world, t, from, from + WindowMs(t))
      ensures a in o.readings && InWindow(o.world.handlers[a], o.readings[a], DecidedAt(o.world, a), from, t)
    {
      assert Faithful(o.world.handlers[a], a, o, t);
    }
  }

  /** At the last read among them, all others of a window were counted or in flight. */
  lemma CoveredByLastRead(o: Seen, t: Terms, from: Time, b: nat, s: set<nat>)
    requires Overlap(o) && ReadsSound(o, t) && WindowSet(o, s, from, t) && b in s
    requires forall a :: a in s ==> o.readings[a].n <= o.readings[b].n
    ensures s <= {b} + o.readings[b].others * s + o.readings[b].counted
  {
    hide Passed;
    hide DecidedAt;
    assert ReadSound(o.readings[b], o, t);
    forall a | a in s && a != b
      ensures a in o.readings[b].others || a in o.readings[b].counted
    {
      assert Alive(o.world.handlers[a]);
      assert a in o.readings[b].recorded ==> a in RecordedOf(o.world.handlers, t);
    }
  }

  /** The limits, widened by what the other payments in flight may add. */
  ghost predicate WithinBudget(handlers: map<nat, Handler>, s: set<nat>, t: Terms) {
    && Total(handlers, s) <= t.mandate.maxPerWindow + (t.inFlight - 1) * Ceiling(t.mandate)
    && |s| <= t.mandate.maxCardsPerWindow + (t.inFlight - 1)
  }

  lemma BoundFromReads(o: Seen, t: Terms, from: Time, s: set<nat>)
    requires Overlap(o) && ReadsSound(o, t) && t.inFlight >= 1 && WindowSet(o, s, from, t) && s != {}
    ensures WithinBudget(o.world.handlers, s, t)
  {
    hide DecidedAt;
    hide Alive;
    hide Recorded;
    hide WithinBudget;
    var handlers := o.world.handlers;
    var b := LastReader(o.readings, s);
    CoveredByLastRead(o, t, from, b, s);
    hide Overlap;
    assert ReadSound(o.readings[b], o, t);
    hide ReadsSound;
    LastReadPays(handlers, s, b, o.readings[b], t);
  }

  lemma LastReadPays(handlers: map<nat, Handler>, s: set<nat>, b: nat, r: Read, t: Terms)
    requires b in handlers && handlers[b].call.Payment? && Passed(handlers[b].call.requestedAmount, r, t)
    requires |r.others| <= t.inFlight - 1
    requires Total(handlers, r.counted) <= r.usage.spent && |r.counted| <= r.usage.cardCount
    requires s <= {b} + r.others * s + r.counted
    requires forall a :: a in s ==> Amount(handlers, a) <= Ceiling(t.mandate)
    ensures WithinBudget(handlers, s, t)
  {
    var c := Ceiling(t.mandate);
    CoverAddsUp(handlers, s, b, r.others, r.counted, c);
    MoreInFlightCostsMore(|r.others|, t.inFlight - 1, c);
  }

  lemma MoreInFlightCostsMore(a: nat, b: nat, c: nat)
    requires a <= b
    ensures a * c <= b * c
  {
  }

  lemma CoverAddsUp(handlers: map<nat, Handler>, s: set<nat>, b: nat, others: set<nat>, counted: set<nat>, most: nat)
    requires s <= {b} + others * s + counted && forall a :: a in s ==> Amount(handlers, a) <= most
    ensures Total(handlers, s) <= Amount(handlers, b) + |others| * most + Total(handlers, counted)
    ensures |s| <= 1 + |others| + |counted|
  {
    var near := others * s;
    TotalIsMonotone(handlers, s, {b} + near + counted);
    TotalOfUnion(handlers, {b} + near, counted);
    TotalOfUnion(handlers, {b}, near);
    TotalIsBounded(handlers, near, most);
    TotalWithout(handlers, {b}, b);
    assert {b} - {b} == {};
    assert |near| <= |others| by { SubsetIsSmaller(near, others); }
    MoreInFlightCostsMore(|near|, |others|, most);
    SubsetIsSmaller(s, {b} + near + counted);
  }

  lemma SubsetIsSmaller(s: set<nat>, u: set<nat>)
    requires s <= u
    ensures |s| <= |u|
  {
    assert u == s + (u - s);
  }

  // ---- What a window read counts -------------------------------------------------------------------

  /** Recorded payments of distinct requests, decided in the window. */
  ghost predicate Countable(w: World, s: set<nat>, from: Time, t: Terms) {
    && (forall a :: a in s ==> a in w.handlers && w.handlers[a].call.Payment? && Entered(w.handlers[a], w.ledger, t)
                               && DecidedAt(w, a) >= from)
    && (forall a, b :: a in s && b in s && a != b ==>
          w.handlers[a].call.requestId != w.handlers[b].call.requestId)
  }

  function Asked(w: World, a: nat): string {
    if a in w.handlers then w.handlers[a].call.requestId else ""
  }

  /** Those among the first `k` intents. */
  function Among(w: World, s: set<nat>, k: nat): set<nat>
    requires k <= |w.ledger.order|
  {
    set a | a in s && Asked(w, a) in w.ledger.order[..k]
  }

  lemma {:induction false} WindowCountsThem(w: World, s: set<nat>, from: Time, k: nat, t: Terms)
    requires Countable(w, s, from, t) && k <= |w.ledger.order|
    ensures var usage := WindowOver(w.ledger, t.mandateId, from, k);
            Total(w.handlers, Among(w, s, k)) <= usage.spent && |Among(w, s, k)| <= usage.cardCount
  {
    if k == 0 {
      assert Among(w, s, 0) == {};
    } else {
      WindowCountsThem(w, s, from, k - 1, t);
      var id := w.ledger.order[k - 1];
      var before, now := Among(w, s, k - 1), Among(w, s, k);
      assert w.ledger.order[..k] == w.ledger.order[..k - 1] + [id];
      if a :| a in s && Asked(w, a) == id {
        assert now <= before + {a};
        AskedCounts(w, s, a, from, t);
        hide Among;
        hide Countable;
        hide Counts;
        OneMore(w.handlers, now, before, a);
      } else {
        assert now == before;
      }
    }
  }

  lemma AskedCounts(w: World, s: set<nat>, a: nat, from: Time, t: Terms)
    requires Countable(w, s, from, t) && a in s
    ensures var id := Asked(w, a);
            && id in w.ledger.intents && Counts(w.ledger.intents[id], t.mandateId, from)
            && w.ledger.intents[id].challenge.value.amount == Amount(w.handlers, a)
  {
  }

  lemma OneMore(handlers: map<nat, Handler>, s: set<nat>, before: set<nat>, a: nat)
    requires s <= before + {a}
    ensures Total(handlers, s) <= Total(handlers, before) + Amount(handlers, a) && |s| <= |before| + 1
  {
    TotalIsMonotone(handlers, s, before + {a});
    TotalOfUnion(handlers, before, {a});
    TotalWithout(handlers, {a}, a);
    assert {a} - {a} == {};
    SubsetIsSmaller(s, before + {a});
  }

  lemma WindowCountsAll(w: World, s: set<nat>, from: Time, t: Terms)
    requires Countable(w, s, from, t) && Ordered(w.ledger)
    ensures var usage := Window(w.ledger, t.mandateId, from);
            Total(w.handlers, s) <= usage.spent && |s| <= usage.cardCount
  {
    var n := |w.ledger.order|;
    WindowCountsThem(w, s, from, n, t);
    assert w.ledger.order[..n] == w.ledger.order;
    forall a | a in s
      ensures Asked(w, a) in w.ledger.order
    {
    }
    assert Among(w, s, n) == s;
  }
}
