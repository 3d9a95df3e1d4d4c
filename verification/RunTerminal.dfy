/**
 * The terminal states of a run, DONE, REFUSED and FAILED: exactly when one is final, and a run that
 * leaves DONE. The answers of the other services are free.
 */
module RunTerminal {
  import opened PolicyChecks
  import opened RunPipeline

  predicate Terminal(s: RunState) {
    s.Done? || s.Refused? || s.Failed?
  }

  /** Nothing of the run is in flight any more. */
  ghost predicate Quiet(r: Run) {
    forall a :: a in r.tasks ==> r.tasks[a].Over?
  }

  function From(r: Run, steps: seq<Step>): Run
    decreases |steps|
  {
    if steps == [] then r else Next(From(r, steps[..|steps| - 1]), steps[|steps| - 1])
  }

  /** The run of a started request after any steps. */
  function After(shopify: bool, steps: seq<Step>): Run {
    From(Started(shopify), steps)
  }

  ghost predicate Final(r: Run) {
    forall more: seq<Step> :: From(r, more).state == r.state
  }

  lemma {:induction false} FromTwo(r: Run, steps: seq<Step>, more: seq<Step>)
    ensures From(r, steps + more) == From(From(r, steps), more)
  {
    hide Next;
    if more == [] {
      assert steps + more == steps;
    } else {
      FromTwo(r, steps, more[..|more| - 1]);
      assert (steps + more)[..|steps + more| - 1] == steps + more[..|more| - 1];
    }
  }

  lemma FromOne(r: Run, step: Step)
    ensures From(r, [step]) == Next(r, step)
  {
    var steps := [step];
    assert steps[..|steps| - 1] == [];
    assert From(r, []) == r;
    hide Next;
  }

  /** A terminal state stays once nothing is in flight: later resolutions and timers find it decided. */
  lemma {:induction false} QuietIsFinal(r: Run, steps: seq<Step>)
    requires Quiet(r) && Terminal(r.state)
    ensures Quiet(From(r, steps)) && From(r, steps).state == r.state
    decreases |steps|
  {
    if steps != [] {
      QuietIsFinal(r, steps[..|steps| - 1]);
      QuietStep(From(r, steps[..|steps| - 1]), steps[|steps| - 1]);
      hide Next;
      hide Quiet;
    }
  }

  lemma QuietStep(r: Run, step: Step)
    requires Quiet(r) && Terminal(r.state)
    ensures Quiet(Next(r, step)) && Next(r, step).state == r.state
  {
  }

  // ---- While something is in flight -----------------------------------------------------------------

  /** The start of a run is its only task until policy has answered. */
  ghost predicate Starting(r: Run) {
    forall a :: a in r.tasks && Executing(r.tasks[a]) ==> SoleTask(r, a)
  }

  ghost predicate SoleTask(r: Run, a: nat) {
    r.state.Running? && !r.pending && !r.timer && forall b :: b in r.tasks ==> b == a
  }

  lemma StartingStep(r: Run, step: Step)
    requires Starting(r)
    ensures Starting(Next(r, step))
  {
    if step.Answered? && step.id in r.tasks {
      AnswerKeepsStarting(r, step.id, step.answer);
      hide Starting;
    }
  }

  /** An answer moves its own task, and starts nothing. */
  ghost predicate MovesOnly(r: Run, next: Run, id: nat) {
    && next.tasks.Keys == r.tasks.Keys && id in r.tasks
    && (forall b :: b in r.tasks && b != id ==> next.tasks[b] == r.tasks[b])
    && (Executing(next.tasks[id]) ==>
          Executing(r.tasks[id]) && next.state == r.state && next.pending == r.pending && next.timer == r.timer)
  }

  lemma MoveMovesOnly(r: Run, next: Run, id: nat, p: Point)
    requires id in r.tasks && next.tasks == r.tasks[id := p]
    requires Executing(p) ==>
               Executing(r.tasks[id]) && next.state == r.state && next.pending == r.pending && next.timer == r.timer
    ensures MovesOnly(r, next, id)
  {
    assert next.tasks.Keys == r.tasks.Keys;
  }

  lemma StayMovesOnly(r: Run, id: nat)
    requires id in r.tasks
    ensures MovesOnly(r, r, id)
  {
  }

  lemma ExecutedMovesOnly(r: Run, id: nat, a: Answer)
    requires id in r.tasks
    ensures MovesOnly(r, Executed(r, id, r.tasks[id], a), id)
  {
    var next := Executed(r, id, r.tasks[id], a);
    if Executing(r.tasks[id]) {
      assert next.tasks == r.tasks[id := next.tasks[id]];
      hide MovesOnly;
      MoveMovesOnly(r, next, id, next.tasks[id]);
    } else {
      StayMovesOnly(r, id);
    }
  }

  lemma ContinuedMovesOnly(r: Run, id: nat, a: Answer)
    requires id in r.tasks && Continuing(r.tasks[id])
    ensures MovesOnly(r, Continued(r, id, r.tasks[id], a), id)
  {
    var next := Continued(r, id, r.tasks[id], a);
    assert next.tasks == r.tasks[id := next.tasks[id]];
    hide MovesOnly;
    MoveMovesOnly(r, next, id, next.tasks[id]);
  }

  lemma WaiterMovesOnly(r: Run, id: nat, a: Answer)
    requires id in r.tasks
    ensures MovesOnly(r, Resolved(r, id, a), id) && MovesOnly(r, Expired(r, id, a), id)
  {
  }

  lemma AnswerKeepsStarting(r: Run, id: nat, a: Answer)
    requires Starting(r) && id in r.tasks
    ensures Starting(Next(r, Answered(id, a)))
  {
    ExecutedMovesOnly(r, id, a);
    if Continuing(r.tasks[id]) {
      ContinuedMovesOnly(r, id, a);
    }
    WaiterMovesOnly(r, id, a);
    hide Executed;
    hide Continued;
    hide Resolved;
    hide Expired;
    MoverKeepsStarting(r, Next(r, Answered(id, a)), id);
  }

  lemma MoverKeepsStarting(r: Run, next: Run, id: nat)
    requires Starting(r) && MovesOnly(r, next, id)
    ensures Starting(next)
  {
    forall b | b in next.tasks && Executing(next.tasks[b])
      ensures SoleTask(next, b)
    {
      assert SoleTask(r, b);
    }
  }

  lemma {:induction false} EveryRunStarts(shopify: bool, steps: seq<Step>)
    ensures Starting(After(shopify, steps))
    decreases |steps|
  {
    if steps != [] {
      EveryRunStarts(shopify, steps[..|steps| - 1]);
      hide Next;
      hide Starting;
      StartingStep(After(shopify, steps[..|steps| - 1]), steps[|steps| - 1]);
    }
  }

  /** How many answers a task that presented its header still waits for. */
  function Remaining(p: Point): nat {
    match p
    case AtIssue => 7
    case AtCheckout(asserted) => if asserted then 5 else 6
    case AtSpend => 4
    case AtConfirm => 3
    case AtSettlement => 2
    case AtCapture => 1
    case _ => 0
  }

  function Onward(p: Point): Point {
    match p
    case AtIssue => AtCheckout(false)
    case AtCheckout(asserted) => if asserted then AtSpend else AtCheckout(true)
    case AtSpend => AtConfirm
    case AtConfirm => AtSettlement
    case AtSettlement => AtCapture
    case _ => Over
  }

  /** What a service that succeeds sends next. */
  function Success(id: nat, p: Point): Step {
    if p == AtCheckout(false) then DomainAsserted(id) else Answered(id, Replied)
  }

  lemma SuccessMovesOn(r: Run, id: nat)
    requires id in r.tasks && Continuing(r.tasks[id])
    ensures var next := Next(r, Success(id, r.tasks[id]));
            && next.tasks == r.tasks[id := Onward(r.tasks[id])]
            && (r.tasks[id].AtCapture? ==> next.state.Done?)
  {
  }

  /** A task that presented its header can always bring the run to DONE, leaving the others alone. */
  lemma {:induction false} CanFinish(r: Run, id: nat) returns (steps: seq<Step>)
    requires id in r.tasks && Continuing(r.tasks[id])
    ensures From(r, steps).state.Done? && From(r, steps).tasks == r.tasks[id := Over]
    decreases Remaining(r.tasks[id])
  {
    var step := Success(id, r.tasks[id]);
    var next := Next(r, step);
    SuccessMovesOn(r, id);
    FromOne(r, step);
    hide Next;
    if r.tasks[id].AtCapture? {
      steps := [step];
    } else {
      var more := CanFinish(next, id);
      FromTwo(r, [step], more);
      steps := [step] + more;
    }
  }

  const SOME_HEADER: Header := TypedData(TokenDomain("", "", 0, ""), "", "", 0, 0, 0, "")

  /** Whatever waits for an answer can change a terminal state. */
  lemma InFlightCanChange(r: Run, id: nat) returns (steps: seq<Step>)
    requires Terminal(r.state) && id in r.tasks && !r.tasks[id].Over? && !Executing(r.tasks[id])
    ensures From(r, steps).state != r.state
  {
    if r.tasks[id].AtResolution? {
      steps := [Answered(id, SignedReply(SOME_HEADER))];
      FromOne(r, Answered(id, SignedReply(SOME_HEADER)));
    } else if r.tasks[id].AtExpiry? || !r.state.Failed? {
      var answer := Threw(if r.state.Failed? then GONE else 500);
      steps := [Answered(id, answer)];
      FromOne(r, Answered(id, answer));
    } else {
      hide Next;
      steps := CanFinish(r, id);
    }
  }

  /** A terminal state that a run can reach is final exactly when nothing of the run is in flight. */
  lemma FinalExactlyWhenQuiet(shopify: bool, steps: seq<Step>)
    requires Terminal(After(shopify, steps).state)
    ensures Final(After(shopify, steps)) <==> Quiet(After(shopify, steps))
  {
    var r := After(shopify, steps);
    EveryRunStarts(shopify, steps);
    hide After;
    if Quiet(r) {
      forall more: seq<Step>
        ensures From(r, more).state == r.state
      {
        QuietIsFinal(r, more);
      }
    } else {
      var id :| id in r.tasks && !r.tasks[id].Over?;
      assert !Executing(r.tasks[id]);
      var more := InFlightCanChange(r, id);
      assert From(r, more).state != r.state;
    }
  }

  /** An expiry in flight sets the run REFUSED or FAILED, whatever the state is by then. */
  lemma ExpiryOverwrites(r: Run, id: nat, a: Answer)
    requires id in r.tasks && r.tasks[id].AtExpiry?
    ensures Next(r, Answered(id, a)).state == if a.Threw? && a.status != GONE then Failed else Refused
  {
  }

  // ---- A run that leaves DONE ------------------------------------------------------------------------

  /** From the start to an escalation: four answers, and policy's. */
  const ESCALATES: seq<Step> :=
    [ Answered(0, Replied), Answered(0, Replied), Answered(0, Replied), Answered(0, Replied), Answered(0, EscalatedReply) ]

  lemma StartEscalates(shopify: bool)
    ensures var r := After(shopify, ESCALATES);
            r.state.Escalated? && r.pending && r.timer && r.tasks == map[0 := Over]
  {
    var r := Started(shopify);
    var r1 := Starts(r, Replied);
    var r2 := Starts(r1, Replied);
    var r3 := Starts(r2, Replied);
    var r4 := Starts(r3, Replied);
    var r5 := Starts(r4, EscalatedReply);
    hide Next;
    FromFive(r, ESCALATES, r1, r2, r3, r4, r5);
  }

  /** One answer to the only task of a run that is starting, up to an escalation. */
  lemma Starts(r: Run, a: Answer) returns (next: Run)
    requires r.tasks.Keys == {0} && Executing(r.tasks[0])
    requires a == if r.tasks[0].AtDecision? then EscalatedReply else Replied
    ensures next == Next(r, Answered(0, a)) && next.tasks.Keys == {0}
    ensures match r.tasks[0]
            case AtIntent => next.tasks[0] == AtDiscovery
            case AtDiscovery => next.tasks[0] == AtCard
            case AtCard => next.tasks[0] == AtAttach
            case AtAttach => next.tasks[0] == AtDecision
            case _ => next.state.Escalated? && next.pending && next.timer && next.tasks == map[0 := Over]
  {
    next := Executed(r, 0, r.tasks[0], a);
    assert r.tasks[0 := Over] == map[0 := Over];
    hide Executed;
    hide Continued;
    assert next == Next(r, Answered(0, a));
    assert next.tasks.Keys == {0} by { Started0(r, a); }
  }

  lemma Started0(r: Run, a: Answer)
    requires r.tasks.Keys == {0}
    ensures Executed(r, 0, r.tasks[0], a).tasks.Keys == {0}
  {
    ExecutedMovesOnly(r, 0, a);
    hide Executed;
  }

  lemma FromFive(r: Run, s: seq<Step>, r1: Run, r2: Run, r3: Run, r4: Run, r5: Run)
    requires |s| == 5 && r1 == Next(r, s[0]) && r2 == Next(r1, s[1]) && r3 == Next(r2, s[2])
    requires r4 == Next(r3, s[3]) && r5 == Next(r4, s[4])
    ensures From(r, s) == r5
  {
    hide Next;
    FromTwo(r, s[..1], [s[1]]);
    FromTwo(r, s[..2], [s[2]]);
    FromTwo(r, s[..3], [s[3]]);
    FromTwo(r, s[..4], [s[4]]);
    FromOne(r, s[0]);
    FromOne(r1, s[1]);
    FromOne(r2, s[2]);
    FromOne(r3, s[3]);
    FromOne(r4, s[4]);
    assert s[..1] == [s[0]] && s[..1] + [s[1]] == s[..2] && s[..2] + [s[2]] == s[..3];
    assert s[..3] + [s[3]] == s[..4] && s[..4] + [s[4]] == s;
  }

  /** A run that is resolved and expires at the same time reaches DONE, and then FAILED. */
  lemma DoneIsNotFinal(shopify: bool, header: Header) returns (steps: seq<Step>)
    ensures var done := After(shopify, steps);
            && done.state.Done? && 2 in done.tasks && done.tasks[2].AtExpiry?
            && After(shopify, steps + [Answered(2, Threw(409))]).state.Failed?
  {
    StartEscalates(shopify);
    var r := After(shopify, ESCALATES);
    var both := [ResolveCalled(1), TimerFires(2), Answered(1, SignedReply(header))];
    SignsWhileExpiring(r, header);
    var signing := From(r, both);
    FromTwo(Started(shopify), ESCALATES, both);
    hide Next;
    var rest := CanFinish(signing, 1);
    FromTwo(Started(shopify), ESCALATES + both, rest);
    steps := ESCALATES + both + rest;
    FromTwo(Started(shopify), steps, [Answered(2, Threw(409))]);
    FromOne(After(shopify, steps), Answered(2, Threw(409)));
    ExpiryOverwrites(After(shopify, steps), 2, Threw(409));
  }

  lemma SignsWhileExpiring(r: Run, header: Header)
    requires r.state.Escalated? && r.pending && r.timer && r.tasks == map[0 := Over]
    ensures From(r, [ResolveCalled(1), TimerFires(2), Answered(1, SignedReply(header))]).tasks
            == map[0 := Over, 1 := AtIssue, 2 := AtExpiry]
  {
    var s := [ResolveCalled(1), TimerFires(2), Answered(1, SignedReply(header))];
    var r1 := Move(r, 1, AtResolution);
    var r2 := Move(r1.(timer := false), 2, AtExpiry);
    assert Next(r, s[0]) == r1 && Next(r1, s[1]) == r2;
    var r3 := Next(r2, s[2]);
    assert r3.tasks == map[0 := Over, 1 := AtIssue, 2 := AtExpiry];
    hide Next;
    FromTwo(r, s[..1], [s[1]]);
    FromTwo(r, s[..2], [s[2]]);
    FromOne(r, s[0]);
    FromOne(r1, s[1]);
    FromOne(r2, s[2]);
    assert s[..1] == [s[0]] && s[..1] + [s[1]] == s[..2] && s[..2] + [s[2]] == s;
  }
}
