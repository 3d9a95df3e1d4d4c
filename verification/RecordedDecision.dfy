/**
 * The decision recorded on a request, which /decision overwrites unconditionally: which steps of
 * the protocol change it, and when a signed one stays.
 */
module RecordedDecision {
  import opened Wrappers
  import opened Mandates
  import opened LedgerStore
  import opened LedgerInvariants
  import opened SigningInvariant
  import P = SigningProtocol

  predicate DecidesOn(q: Request, id: string) {
    q.RecordDecision? && q.newId == Some(id)
  }

  lemma RouteDecides(s: Ledger, q: Request, now: Time, keccak: Keccak)
    requires Subject(q) in s.intents ==> s.intents[Subject(q)].requestId == Subject(q)
    requires Stored(Route(s, q, now, keccak)).Some?
    ensures var i := Stored(Route(s, q, now, keccak)).value;
            i.requestId in s.intents && !DecidesOn(q, i.requestId) ==>
              i.decision == s.intents[i.requestId].decision && i.decidedAt == s.intents[i.requestId].decidedAt
  {
  }

  lemma DecisionStays(s: Ledger, q: Request, now: Time, keccak: Keccak, id: string)
    requires Sound(s, keccak) && id in s.intents
    ensures var t := Handle(s, q, now, keccak);
            && id in t.intents && Kept(s.intents[id], t.intents[id])
            && (!DecidesOn(q, id) ==>
                  t.intents[id].decision == s.intents[id].decision && t.intents[id].decidedAt == s.intents[id].decidedAt)
  {
    HandleKeeps(s, q, now, keccak);
    Keyed(s, Subject(q), keccak);
    hide Sound;
    hide Kept;
    ApplyStores(s, Route(s, q, now, keccak), now);
    if Stored(Route(s, q, now, keccak)).Some? {
      RouteDecides(s, q, now, keccak);
    }
    hide Route;
    hide Apply;
  }

  /** Which outstanding calls decide on a request: those of its own handlers, about to record. */
  lemma OwnDecision(h: Handler, setup: P.Setup, id: string)
    requires P.Outstanding(h, setup).Write? && DecidesOn(P.Outstanding(h, setup).request, id)
    ensures h.call.requestId == id
    ensures h.point.AwaitSignedRecord? || h.point.AwaitRefusedRecord? || h.point.AwaitEscalatedRecord?
  {
  }

  predicate SignedNow(s: Ledger, id: string) {
    id in s.intents && s.intents[id].decision == Some(Signed)
  }

  /** A handler of the request is about to record a refusal or an escalation of it. */
  predicate Undecides(h: P.Handler, id: string) {
    h.call.requestId == id && h.answer.None? && (h.point.AwaitRefusedRecord? || h.point.AwaitEscalatedRecord?)
  }

  predicate Overwrites(w: World, step: P.Step, id: string) {
    step.Serve? && step.id in w.handlers && Undecides(w.handlers[step.id], id)
  }

  lemma UndecidingWrite(h: P.Handler, id: string, setup: P.Setup)
    requires Undecides(h, id)
    ensures P.Unserved(h, setup) && P.Outstanding(h, setup).Write? && DecidesOn(P.Outstanding(h, setup).request, id)
    ensures var q := P.Outstanding(h, setup).request;
            q.decidedAt.Some? && q.decision == Some(if h.point.AwaitRefusedRecord? then Refused else Escalated)
  {
  }

  lemma DecidingWrite(s: Ledger, q: Request, now: Time, keccak: Keccak, id: string)
    requires id in s.intents && s.intents[id].requestId == id && id != ""
    requires DecidesOn(q, id) && q.decision.Some? && q.decidedAt.Some?
    ensures var t := Handle(s, q, now, keccak); id in t.intents && t.intents[id].decision == q.decision
  {
    hide IntentViewOf;
  }

  lemma SigningWrite(h: P.Handler, id: string, setup: P.Setup)
    requires P.Outstanding(h, setup).Write? && DecidesOn(P.Outstanding(h, setup).request, id)
    requires h.answer.None? && !Undecides(h, id)
    ensures var q := P.Outstanding(h, setup).request; q.decision == Some(Signed) && q.decidedAt.Some?
  {
  }

  lemma ServedDecision(w: World, a: nat, id: string, setup: P.Setup)
    requires Safe(w, setup) && SignedNow(w.ledger, id) && a in w.handlers && P.Unserved(w.handlers[a], setup)
    ensures var after := P.Served(w, a, setup).ledger;
            && id in after.intents
            && after.intents[id].decision
               == if !Undecides(w.handlers[a], id) then Some(Signed)
                  else if w.handlers[a].point.AwaitRefusedRecord? then Some(Refused) else Some(Escalated)
  {
    var h := w.handlers[a];
    var c := P.Outstanding(h, setup);
    assert Sound(w.ledger, setup.keccak) && Ordered(w.ledger);
    hide Safe;
    Keyed(w.ledger, id, setup.keccak);
    assert id != "";
    if Undecides(h, id) {
      UndecidingWrite(h, id, setup);
    }
    if c.Write? {
      DecisionStays(w.ledger, c.request, w.clock, setup.keccak, id);
      if DecidesOn(c.request, id) {
        if !Undecides(h, id) {
          SigningWrite(h, id, setup);
        }
        hide P.Outstanding;
        DecidingWrite(w.ledger, c.request, w.clock, setup.keccak, id);
      }
    }
    hide P.Outstanding;
    hide Sound;
    hide Handle;
    hide P.AnswerTo;
    hide Undecides;
    hide DecidesOn;
  }

  lemma ServeStep(w: World, a: nat, id: string, setup: P.Setup)
    requires Safe(w, setup) && SignedNow(w.ledger, id)
    ensures SignedNow(P.Next(w, P.Serve(a), setup).ledger, id) <==> !Overwrites(w, P.Serve(a), id)
  {
    if a in w.handlers {
      if Undecides(w.handlers[a], id) {
        UndecidingWrite(w.handlers[a], id, setup);
      }
      hide Undecides;
      hide P.Unserved;
      hide P.Served;
      if P.Unserved(w.handlers[a], setup) {
        ServedDecision(w, a, id, setup);
      }
    }
    hide Safe;
  }

  lemma OutsideIsHandled(w: World, q: Request, setup: P.Setup)
    ensures P.Next(w, P.Outside(q), setup).ledger
            == if P.PolicyOnly(q) then w.ledger else Handle(w.ledger, q, w.clock, setup.keccak)
  {
    hide P.Served;
    hide P.Resumed;
    hide P.Answered;
    hide P.Admitted;
    hide P.Start;
    hide P.Signs;
    hide P.Unserved;
    hide Handle;
  }

  lemma OutsideStep(w: World, q: Request, id: string, setup: P.Setup)
    requires Safe(w, setup) && SignedNow(w.ledger, id)
    ensures SignedNow(P.Next(w, P.Outside(q), setup).ledger, id)
  {
    OutsideIsHandled(w, q, setup);
    hide P.Next;
    hide Handle;
    assert Sound(w.ledger, setup.keccak);
    hide Safe;
    hide Sound;
    if !P.PolicyOnly(q) {
      DecisionStays(w.ledger, q, w.clock, setup.keccak, id);
    }
  }

  /** Every other step leaves the ledger alone. */
  lemma OtherStep(w: World, step: P.Step, setup: P.Setup)
    requires !step.Serve? && !step.Outside?
    ensures P.Next(w, step, setup).ledger == w.ledger
  {
    hide P.Resumed;
    hide P.Answered;
    hide P.Admitted;
    hide P.Start;
  }

  /**
   * A request recorded as signed stays so at every step but one kind: the ledger serves a handler of
   * that request that is about to record a refusal or an escalation.
   */
  lemma SignedStaysUnlessOverwritten(w: World, step: P.Step, id: string, setup: P.Setup)
    requires Safe(w, setup) && SignedNow(w.ledger, id)
    ensures SignedNow(P.Next(w, step, setup).ledger, id) <==> !Overwrites(w, step, id)
  {
    if step.Serve? {
      ServeStep(w, step.id, id, setup);
    } else if step.Outside? {
      OutsideStep(w, step.request, id, setup);
    } else {
      OtherStep(w, step, setup);
    }
    hide P.Next;
    hide Safe;
  }

  ghost predicate NothingOverwrites(clock: Time, steps: seq<P.Step>, more: seq<P.Step>, id: string, setup: P.Setup) {
    forall n :: 0 <= n < |more| ==> !Overwrites(P.Run(clock, steps + more[..n], setup), more[n], id)
  }

  lemma NothingOverwritesBefore(clock: Time, steps: seq<P.Step>, more: seq<P.Step>, id: string, setup: P.Setup)
    requires more != [] && NothingOverwrites(clock, steps, more, id, setup)
    ensures var n := |more| - 1;
            && NothingOverwrites(clock, steps, more[..n], id, setup)
            && !Overwrites(P.Run(clock, steps + more[..n], setup), more[n], id)
  {
    hide P.Run;
    hide Overwrites;
    var front := more[..|more| - 1];
    forall k | 0 <= k < |front|
      ensures !Overwrites(P.Run(clock, steps + front[..k], setup), front[k], id)
    {
      assert front[..k] == more[..k];
    }
  }

  /** Over any continuation of any run, a signed request stays signed as long as no step overwrites it. */
  lemma {:induction false} SignedStaysAlong(clock: Time, steps: seq<P.Step>, more: seq<P.Step>, id: string,
                                            setup: P.Setup)
    requires SignedNow(P.Run(clock, steps, setup).ledger, id) && NothingOverwrites(clock, steps, more, id, setup)
    ensures SignedNow(P.Run(clock, steps + more, setup).ledger, id)
  {
    hide P.Next;
    hide Overwrites;
    hide SignedNow;
    hide Safe;
    if more == [] {
      assert steps + more == steps;
    } else {
      var front := more[..|more| - 1];
      NothingOverwritesBefore(clock, steps, more, id, setup);
      hide NothingOverwrites;
      SignedStaysAlong(clock, steps, front, id, setup);
      RunIsSafe(clock, steps + front, setup);
      SignedStaysUnlessOverwritten(P.Run(clock, steps + front, setup), more[|more| - 1], id, setup);
      assert (steps + more)[..|steps + more| - 1] == steps + front;
    }
  }
}
