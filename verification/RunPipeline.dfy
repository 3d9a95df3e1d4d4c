/**
 * services/agent-orchestrator/src/run/pipeline.ts and run/store.ts: one run with its main task,
 * any number of escalation resolutions, and the expiry timer, interleaved at their awaits. What
 * the other services answer is free here; RunOverPolicy lets policy answer as it does.
 */
module RunPipeline {
  import opened PolicyChecks

  /** A signed header, known by the authorisation it carries. */
  type Header = TypedData

  datatype Stage =
    | IntentCreated | DiscoveryDone | CheckoutAcquired | ChallengeReceived | PolicyDecision
    | CardIssued | CheckoutAsserted | SpendRecorded | SettlementFinalized

  datatype Status = Fine | Refusal | Escalation

  datatype RunEvent = RunEvent(number: nat, stage: Stage, status: Status)

  datatype RunState = Running | Escalated | AwaitingCheckout | Done | Refused | Failed

  /** The acts that matter for money, in the order they were done. */
  datatype Mark =
    | HeaderPresented(header: Header) | CardGiven | TransferMatched | SettlementStored | CaptureStored | MarkedDone

  /** The await a task is stopped at. */
  datatype Point =
    | AtIntent | AtDiscovery | AtCard | AtAttach | AtDecision
    | AtIssue | AtCheckout(asserted: bool) | AtSpend | AtConfirm | AtSettlement | AtCapture
    | AtResolution | AtExpiry | Over

  /** What an awaited call comes back with; `Declined` is a reply that says no. */
  datatype Answer =
    | Replied | Declined | SignedReply(header: Header) | RefusedReply | EscalatedReply | Threw(status: int)

  datatype Run = Run(shopify: bool, state: RunState, events: seq<RunEvent>, pending: bool, timer: bool,
                     tasks: map<nat, Point>, marks: seq<Mark>)

  datatype Step =
    | Answered(id: nat, answer: Answer)
    | DomainAsserted(id: nat)
    | ResolveCalled(id: nat)
    | TimerFires(id: nat)

  const GONE: int := 410

  function Started(shopify: bool): Run {
    Run(shopify, Running, [], false, false, map[0 := AtIntent], [])
  }

  // ---- run/store.ts -------------------------------------------------------------------------------

  function Emit(r: Run, stage: Stage, status: Status): Run {
    r.(events := r.events + [RunEvent(|r.events| + 1, stage, status)])
  }

  // ---- pipeline.ts, from one await to the next ----------------------------------------------------

  function Move(r: Run, id: nat, point: Point): Run {
    r.(tasks := r.tasks[id := point])
  }

  function Fail(r: Run, id: nat): Run {
    Move(r, id, Over).(state := Failed)
  }

  function Act(r: Run, mark: Mark): Run {
    r.(marks := r.marks + [mark])
  }

  /** continueSignedRun up to its first await. */
  function Continue(r: Run, id: nat, header: Header): Run {
    Move(Act(r, HeaderPresented(header)), id, AtIssue)
  }

  function ClearEscalation(r: Run): Run {
    r.(pending := false, timer := false)
  }

  /** handleDecision. */
  function Decided(r: Run, id: nat, a: Answer): (next: Run)
    ensures next.shopify == r.shopify
  {
    match a
    case RefusedReply => Move(Emit(r, PolicyDecision, Refusal).(state := Refused), id, Over)
    case EscalatedReply =>
      Move(Emit(r, PolicyDecision, Escalation).(state := Escalated, pending := true, timer := true), id, Over)
    case SignedReply(header) => Continue(Emit(r, PolicyDecision, Fine), id, header)
    case _ => Fail(r, id)
  }

  /** executeRun after startRun. */
  function Executed(r: Run, id: nat, point: Point, a: Answer): (next: Run)
    ensures next.shopify == r.shopify
  {
    match point
    case AtIntent => if a.Replied? then Move(Emit(r, IntentCreated, Fine), id, AtDiscovery) else Fail(r, id)
    case AtDiscovery =>
      var found := Emit(r, if r.shopify then CheckoutAcquired else DiscoveryDone, Fine);
      if a.Replied? then Move(found, id, AtCard) else if a.Declined? then Fail(found, id) else Fail(r, id)
    case AtCard => if a.Replied? then Move(Emit(r, ChallengeReceived, Fine), id, AtAttach) else Fail(r, id)
    case AtAttach => if a.Replied? then Move(r, id, AtDecision) else Fail(r, id)
    case AtDecision => Decided(r, id, a)
    case _ => r
  }

  /** continueSignedRun; every failure on the way is caught. */
  function Continued(r: Run, id: nat, point: Point, a: Answer): (next: Run)
    ensures next.shopify == r.shopify
  {
    match point
    case AtIssue =>
      if a.Replied?
      then Move(Emit(Act(r, CardGiven), CardIssued, Fine).(state := AwaitingCheckout), id, AtCheckout(false))
      else Fail(r, id)
    case AtCheckout(asserted) =>
      if a.Replied? then (if asserted then Move(r, id, AtSpend) else r) else Fail(r, id)
    case AtSpend => if a.Replied? then Move(Emit(r, SpendRecorded, Fine), id, AtConfirm) else Fail(r, id)
    case AtConfirm =>
      if a.Replied? then Move(Act(r, TransferMatched), id, AtSettlement)
      else if a.Declined? then Fail(Emit(r, SettlementFinalized, Refusal), id) else Fail(r, id)
    case AtSettlement => if a.Replied? then Move(Act(r, SettlementStored), id, AtCapture) else Fail(r, id)
    case AtCapture =>
      if a.Replied?
      then Move(Act(Emit(Act(r, CaptureStored), SettlementFinalized, Fine), MarkedDone).(state := Done), id, Over)
      else Fail(r, id)
    case _ => r
  }

  /** resolveRunEscalation after its await: only an answer, or a 410, ends the escalation. */
  function Resolved(r: Run, id: nat, a: Answer): (next: Run)
    ensures next.shopify == r.shopify
  {
    match a
    case SignedReply(header) => Continue(ClearEscalation(r).(state := Running), id, header)
    case RefusedReply => Move(ClearEscalation(r).(state := Refused), id, Over)
    case Threw(status) =>
      if status == GONE then Move(ClearEscalation(r).(state := Refused), id, Over) else Move(r, id, Over)
    case _ => Move(ClearEscalation(r), id, Over)
  }

  /** expireEscalation after its await; it does not look at the state again. */
  function Expired(r: Run, id: nat, a: Answer): (next: Run)
    ensures next.shopify == r.shopify
  {
    if a.Threw? && a.status != GONE then Fail(r.(pending := false), id)
    else Move(r.(pending := false, state := Refused), id, Over)
  }

  function Next(r: Run, step: Step): Run {
    match step
    case Answered(id, a) =>
      if id !in r.tasks then r
      else
        var point := r.tasks[id];
        if point.AtResolution? then Resolved(r, id, a)
        else if point.AtExpiry? then Expired(r, id, a)
        else if Continuing(point) then Continued(r, id, point, a)
        else Executed(r, id, point, a)
    case DomainAsserted(id) =>
      if id in r.tasks && r.tasks[id] == AtCheckout(false)
      then Move(Emit(r, CheckoutAsserted, Fine), id, AtCheckout(true)) else r
    case ResolveCalled(id) =>
      if id !in r.tasks && r.pending && r.state.Escalated? then Move(r, id, AtResolution) else r
    case TimerFires(id) =>
      if id in r.tasks || !r.timer then r
      else if r.state.Escalated? then Move(r.(timer := false), id, AtExpiry) else r.(timer := false)
  }

  predicate Continuing(p: Point) {
    p.AtIssue? || p.AtCheckout? || p.AtSpend? || p.AtConfirm? || p.AtSettlement? || p.AtCapture?
  }

  predicate Executing(p: Point) {
    p.AtIntent? || p.AtDiscovery? || p.AtCard? || p.AtAttach? || p.AtDecision?
  }

  predicate Working(p: Point) {
    Continuing(p) || Executing(p)
  }

  // ---- The same, in place -------------------------------------------------------------------------

  class RunRecord {
    const shopify: bool
    var state: RunState
    var events: seq<RunEvent>
    var pending: bool
    var timer: bool
    var tasks: map<nat, Point>
    var marks: seq<Mark>

    constructor (shopify: bool)
      ensures State() == Started(shopify)
    {
      this.shopify := shopify;
      state, events, pending, timer := Running, [], false, false;
      tasks, marks := map[0 := AtIntent], [];
    }

    function State(): Run
      reads this
    {
      Run(shopify, state, events, pending, timer, tasks, marks)
    }

    method EmitEvent(stage: Stage, status: Status)
      modifies this
      ensures State() == Emit(old(State()), stage, status)
    {
      events := events + [RunEvent(|events| + 1, stage, status)];
    }

    method SafeFailure(id: nat)
      modifies this
      ensures State() == Fail(old(State()), id)
    {
      tasks := tasks[id := Over];
      state := Failed;
    }

    method HandleDecision(id: nat, a: Answer)
      modifies this
      ensures State() == Decided(old(State()), id, a)
    {
      match a {
        case RefusedReply =>
          EmitEvent(PolicyDecision, Refusal);
          state := Refused;
          tasks := tasks[id := Over];
        case EscalatedReply =>
          EmitEvent(PolicyDecision, Escalation);
          state, pending, timer := Escalated, true, true;
          tasks := tasks[id := Over];
        case SignedReply(header) =>
          EmitEvent(PolicyDecision, Fine);
          PresentHeader(id, header);
        case _ =>
          SafeFailure(id);
      }
    }

    method PresentHeader(id: nat, header: Header)
      modifies this
      ensures State() == Continue(old(State()), id, header)
    {
      marks := marks + [HeaderPresented(header)];
      tasks := tasks[id := AtIssue];
    }

    method ExecuteRun(id: nat, a: Answer)
      requires id in tasks
      modifies this
      ensures State() == Executed(old(State()), id, old(tasks[id]), a)
    {
      var point := tasks[id];
      if point.AtDecision? {
        HandleDecision(id, a);
      } else if Executing(point) && !a.Replied? {
        if point.AtDiscovery? && a.Declined? {
          EmitEvent(if shopify then CheckoutAcquired else DiscoveryDone, Fine);
        }
        SafeFailure(id);
      } else if point.AtIntent? {
        EmitEvent(IntentCreated, Fine);
        tasks := tasks[id := AtDiscovery];
      } else if point.AtDiscovery? {
        EmitEvent(if shopify then CheckoutAcquired else DiscoveryDone, Fine);
        tasks := tasks[id := AtCard];
      } else if point.AtCard? {
        EmitEvent(ChallengeReceived, Fine);
        tasks := tasks[id := AtAttach];
      } else if point.AtAttach? {
        tasks := tasks[id := AtDecision];
      }
    }

    method ContinueSignedRun(id: nat, a: Answer)
      requires id in tasks && Continuing(tasks[id])
      modifies this
      ensures State() == Continued(old(State()), id, old(tasks[id]), a)
    {
      var point := tasks[id];
      if !a.Replied? {
        if point.AtConfirm? && a.Declined? {
          EmitEvent(SettlementFinalized, Refusal);
        }
        SafeFailure(id);
        return;
      }
      match point {
        case AtIssue =>
          marks := marks + [CardGiven];
          EmitEvent(CardIssued, Fine);
          state := AwaitingCheckout;
          tasks := tasks[id := AtCheckout(false)];
        case AtCheckout(asserted) =>
          if asserted {
            tasks := tasks[id := AtSpend];
          }
        case AtSpend =>
          EmitEvent(SpendRecorded, Fine);
          tasks := tasks[id := AtConfirm];
        case AtConfirm =>
          marks := marks + [TransferMatched];
          tasks := tasks[id := AtSettlement];
        case AtSettlement =>
          marks := marks + [SettlementStored];
          tasks := tasks[id := AtCapture];
        case AtCapture =>
          marks := marks + [CaptureStored];
          EmitEvent(SettlementFinalized, Fine);
          marks := marks + [MarkedDone];
          state := Done;
          tasks := tasks[id := Over];
      }
    }

    method ResolveRunEscalation(id: nat, a: Answer)
      modifies this
      ensures State() == Resolved(old(State()), id, a)
    {
      if a.Threw? && a.status != GONE {
        tasks := tasks[id := Over];
        return;
      }
      timer := false;
      pending := false;
      if a.SignedReply? {
        state := Running;
        PresentHeader(id, a.header);
        return;
      }
      if a.RefusedReply? || a.Threw? {
        state := Refused;
      }
      tasks := tasks[id := Over];
    }

    method ExpireEscalation(id: nat, a: Answer)
      modifies this
      ensures State() == Expired(old(State()), id, a)
    {
      pending := false;
      if a.Threw? && a.status != GONE {
        SafeFailure(id);
        return;
      }
      state := Refused;
      tasks := tasks[id := Over];
    }

    method OnAnswer(id: nat, a: Answer)
      requires id in tasks
      modifies this
      ensures State() == Next(old(State()), Answered(id, a))
    {
      hide Executed;
      hide Continued;
      hide Resolved;
      hide Expired;
      if tasks[id].AtResolution? {
        ResolveRunEscalation(id, a);
      } else if tasks[id].AtExpiry? {
        ExpireEscalation(id, a);
      } else if Continuing(tasks[id]) {
        ContinueSignedRun(id, a);
      } else {
        ExecuteRun(id, a);
      }
    }
  }

  // ---- The invariant --------------------------------------------------------------------------------

  /** The documented order of stages. */
  function Order(shopify: bool): (order: seq<Stage>)
    ensures |order| == 8
  {
    [ IntentCreated, if shopify then CheckoutAcquired else DiscoveryDone, ChallengeReceived, PolicyDecision,
      CardIssued, CheckoutAsserted, SpendRecorded, SettlementFinalized ]
  }

  /** The one way to DONE. */
  function WayToDone(header: Header): (way: seq<Mark>)
    ensures |way| == 6
  {
    [HeaderPresented(header), CardGiven, TransferMatched, SettlementStored, CaptureStored, MarkedDone]
  }

  function EventsAt(p: Point): nat {
    match p
    case AtIntent => 0
    case AtDiscovery => 1
    case AtCard => 2
    case AtAttach => 3
    case AtDecision => 3
    case AtIssue => 4
    case AtCheckout(asserted) => if asserted then 6 else 5
    case AtSpend => 6
    case AtConfirm => 7
    case AtSettlement => 7
    case AtCapture => 7
    case _ => 0
  }

  function MarksAt(p: Point): nat {
    match p
    case AtIssue => 1
    case AtCheckout(_) => 2
    case AtSpend => 2
    case AtConfirm => 2
    case AtSettlement => 3
    case AtCapture => 4
    case _ => 0
  }

  predicate EventsInOrder(shopify: bool, events: seq<RunEvent>) {
    && |events| <= 8
    && forall k :: 0 <= k < |events| ==> events[k].number == k + 1 && events[k].stage == Order(shopify)[k]
  }

  /** One header is presented, first, and the rest follows the one way to DONE. */
  predicate MarksInOrder(marks: seq<Mark>) {
    marks == [] ||
    (marks[0].HeaderPresented? && |marks| <= 6
     && forall k :: 0 <= k < |marks| ==> marks[k] == WayToDone(marks[0].header)[k])
  }

  predicate WorkerInStep(r: Run, p: Point) {
    Working(p) ==> |r.events| == EventsAt(p) && |r.marks| == MarksAt(p)
  }

  ghost predicate OneWorker(tasks: map<nat, Point>) {
    forall a, b :: a in tasks && b in tasks && Working(tasks[a]) && Working(tasks[b]) ==> a == b
  }

  ghost predicate NoWorker(tasks: map<nat, Point>) {
    forall a :: a in tasks ==> !Working(tasks[a])
  }

  /** Someone waits for the escalation to be decided. */
  ghost predicate Open(r: Run) {
    r.pending || r.timer || exists a :: a in r.tasks && (r.tasks[a].AtResolution? || r.tasks[a].AtExpiry?)
  }

  ghost predicate Orderly(r: Run) {
    && EventsInOrder(r.shopify, r.events) && MarksInOrder(r.marks) && OneWorker(r.tasks)
    && (forall a :: a in r.tasks ==> WorkerInStep(r, r.tasks[a]))
    && (r.marks == [] && Open(r) ==> |r.events| == 4 && NoWorker(r.tasks))
    && (r.state.Done? ==> |r.marks| == 6)
  }

  /** The one working task moves on, or stops. */
  lemma WorkerMovesOn(r: Run, next: Run, id: nat, p: Point)
    requires Orderly(r) && id in r.tasks && Working(r.tasks[id])
    requires next.tasks == r.tasks[id := p] && !p.AtResolution? && !p.AtExpiry?
    requires EventsInOrder(next.shopify, next.events) && MarksInOrder(next.marks) && WorkerInStep(next, p)
    requires next.state.Done? ==> |next.marks| == 6
    requires next.marks == [] && (next.pending || next.timer) ==> |next.events| == 4 && !Working(p)
    requires r.marks == [] || next.marks != []
    ensures Orderly(next)
  {
    hide EventsInOrder;
    hide MarksInOrder;
    assert forall a :: a in r.tasks && a != id ==> !Working(r.tasks[a]);
    if r.marks == [] {
      assert !Open(r);
    }
  }

  lemma EmitInOrder(shopify: bool, events: seq<RunEvent>, stage: Stage, status: Status)
    requires EventsInOrder(shopify, events) && |events| < 8 && stage == Order(shopify)[|events|]
    ensures EventsInOrder(shopify, events + [RunEvent(|events| + 1, stage, status)])
  {
    hide Order;
  }

  lemma ActInOrder(marks: seq<Mark>, mark: Mark)
    requires MarksInOrder(marks) && marks != [] && |marks| < 6 && mark == WayToDone(marks[0].header)[|marks|]
    ensures MarksInOrder(marks + [mark])
  {
    hide WayToDone;
  }

  lemma PresentInOrder(header: Header)
    ensures MarksInOrder([HeaderPresented(header)])
  {
  }

  lemma FailIsOrderly(r: Run, id: nat)
    requires Orderly(r) && id in r.tasks && Working(r.tasks[id])
    ensures Orderly(Fail(r, id))
  {
    assert r.marks == [] ==> !(r.pending || r.timer) by { assert r.marks == [] ==> !Open(r); }
    WorkerMovesOn(r, Fail(r, id), id, Over);
    hide Orderly;
  }

  /** The worker emits the next stage and moves on. */
  lemma EmitMovesOn(r: Run, id: nat, stage: Stage, status: Status, p: Point)
    requires Orderly(r) && id in r.tasks && Working(r.tasks[id]) && |r.events| < 8 && stage == Order(r.shopify)[|r.events|]
    requires WorkerInStep(Emit(r, stage, status), p) && !p.AtResolution? && !p.AtExpiry?
    ensures Orderly(Move(Emit(r, stage, status), id, p))
  {
    assert r.marks == [] ==> !(r.pending || r.timer) by { assert r.marks == [] ==> !Open(r); }
    EmitInOrder(r.shopify, r.events, stage, status);
    WorkerMovesOn(r, Move(Emit(r, stage, status), id, p), id, p);
    hide Orderly;
  }

  lemma ActMovesOn(r: Run, id: nat, mark: Mark, p: Point)
    requires Orderly(r) && id in r.tasks && Working(r.tasks[id]) && !p.AtResolution? && !p.AtExpiry?
    requires r.marks != [] && |r.marks| < 6 && mark == WayToDone(r.marks[0].header)[|r.marks|]
    requires WorkerInStep(Act(r, mark), p) && !r.state.Done?
    ensures Orderly(Move(Act(r, mark), id, p))
  {
    ActInOrder(r.marks, mark);
    WorkerMovesOn(r, Move(Act(r, mark), id, p), id, p);
    hide Orderly;
  }

  /** The state of a run is free, as long as it is not set DONE. */
  lemma StateIsFree(r: Run, state: RunState)
    requires Orderly(r) && !state.Done?
    ensures Orderly(r.(state := state))
  {
    hide EventsInOrder;
    hide MarksInOrder;
  }

  lemma DecidedIsOrderly(r: Run, id: nat, a: Answer)
    requires Orderly(r) && id in r.tasks && r.tasks[id].AtDecision?
    ensures Orderly(Decided(r, id, a))
  {
    assert WorkerInStep(r, AtDecision) && !(r.pending || r.timer) by {
      assert WorkerInStep(r, r.tasks[id]);
      assert !Open(r);
    }
    EmitInOrder(r.shopify, r.events, PolicyDecision, Refusal);
    EmitInOrder(r.shopify, r.events, PolicyDecision, Escalation);
    EmitInOrder(r.shopify, r.events, PolicyDecision, Fine);
    assert !r.state.Done?;
    match a {
      case RefusedReply => WorkerMovesOn(r, Decided(r, id, a), id, Over);
      case EscalatedReply => WorkerMovesOn(r, Decided(r, id, a), id, Over);
      case SignedReply(header) =>
        PresentInOrder(header);
        WorkerMovesOn(r, Decided(r, id, a), id, AtIssue);
      case _ => FailIsOrderly(r, id);
    }
    hide Orderly;
  }

  lemma ExecutedIsOrderly(r: Run, id: nat, a: Answer)
    requires Orderly(r) && id in r.tasks && Executing(r.tasks[id])
    ensures Orderly(Executed(r, id, r.tasks[id], a))
  {
    assert WorkerInStep(r, r.tasks[id]);
    FailIsOrderly(r, id);
    match r.tasks[id] {
      case AtIntent => EmitMovesOn(r, id, IntentCreated, Fine, AtDiscovery);
      case AtDiscovery =>
        var stage := if r.shopify then CheckoutAcquired else DiscoveryDone;
        EmitMovesOn(r, id, stage, Fine, AtCard);
        EmitMovesOn(r, id, stage, Fine, Over);
        StateIsFree(Move(Emit(r, stage, Fine), id, Over), Failed);
      case AtCard => EmitMovesOn(r, id, ChallengeReceived, Fine, AtAttach);
      case AtAttach =>
        assert !(r.pending || r.timer) by { assert !Open(r); }
        WorkerMovesOn(r, Move(r, id, AtDecision), id, AtDecision);
      case AtDecision => DecidedIsOrderly(r, id, a);
    }
    hide Orderly;
  }

  lemma ContinuedIsOrderly(r: Run, id: nat, a: Answer)
    requires Orderly(r) && id in r.tasks && Continuing(r.tasks[id])
    ensures Orderly(Continued(r, id, r.tasks[id], a))
  {
    if a.Replied? {
      RepliedIsOrderly(r, id);
    } else {
      assert WorkerInStep(r, r.tasks[id]);
      FailIsOrderly(r, id);
      if r.tasks[id].AtConfirm? && a.Declined? {
        EmitMovesOn(r, id, SettlementFinalized, Refusal, Over);
        StateIsFree(Move(Emit(r, SettlementFinalized, Refusal), id, Over), Failed);
      }
      hide Orderly;
    }
  }

  lemma RepliedIsOrderly(r: Run, id: nat)
    requires Orderly(r) && id in r.tasks && Continuing(r.tasks[id])
    ensures Orderly(Continued(r, id, r.tasks[id], Replied))
  {
    assert WorkerInStep(r, r.tasks[id]);
    assert !r.state.Done?;
    match r.tasks[id] {
      case AtIssue => IssuedIsOrderly(r, id);
      case AtCheckout(asserted) =>
        if asserted {
          WorkerMovesOn(r, Move(r, id, AtSpend), id, AtSpend);
        }
      case AtSpend => EmitMovesOn(r, id, SpendRecorded, Fine, AtConfirm);
      case AtConfirm => ActMovesOn(r, id, TransferMatched, AtSettlement);
      case AtSettlement => ActMovesOn(r, id, SettlementStored, AtCapture);
      case AtCapture => CapturedIsOrderly(r, id);
    }
    hide Orderly;
  }

  lemma IssuedIsOrderly(r: Run, id: nat)
    requires Orderly(r) && id in r.tasks && r.tasks[id].AtIssue?
    ensures Orderly(Continued(r, id, AtIssue, Replied))
  {
    assert WorkerInStep(r, r.tasks[id]);
    ActInOrder(r.marks, CardGiven);
    EmitInOrder(r.shopify, r.events, CardIssued, Fine);
    WorkerMovesOn(r, Continued(r, id, AtIssue, Replied), id, AtCheckout(false));
    hide Orderly;
  }

  lemma CapturedIsOrderly(r: Run, id: nat)
    requires Orderly(r) && id in r.tasks && r.tasks[id].AtCapture?
    ensures Orderly(Continued(r, id, AtCapture, Replied))
  {
    assert WorkerInStep(r, r.tasks[id]);
    ActInOrder(r.marks, CaptureStored);
    ActInOrder(r.marks + [CaptureStored], MarkedDone);
    EmitInOrder(r.shopify, r.events, SettlementFinalized, Fine);
    WorkerMovesOn(r, Continued(r, id, AtCapture, Replied), id, Over);
    hide Orderly;
  }

  /** A task that waited for the escalation stops, without having worked. */
  lemma WaiterStops(r: Run, next: Run, id: nat)
    requires Orderly(r) && id in r.tasks && (r.tasks[id].AtResolution? || r.tasks[id].AtExpiry?)
    requires next.tasks == r.tasks[id := Over] && next.events == r.events && next.marks == r.marks
    requires next.shopify == r.shopify && !(next.state.Done? && !r.state.Done?)
    ensures Orderly(next)
  {
    assert Open(r);
    hide EventsInOrder;
    hide MarksInOrder;
  }

  lemma ResolvedIsOrderly(r: Run, id: nat, a: Answer)
    requires Orderly(r) && id in r.tasks && r.tasks[id].AtResolution? && (a.SignedReply? ==> r.marks == [])
    ensures Orderly(Resolved(r, id, a))
  {
    if a.SignedReply? {
      ResolutionContinues(r, id, a.header);
    } else {
      WaiterStops(r, Resolved(r, id, a), id);
    }
    hide Orderly;
  }

  lemma ResolutionContinues(r: Run, id: nat, header: Header)
    requires Orderly(r) && id in r.tasks && r.tasks[id].AtResolution? && r.marks == []
    ensures Orderly(Continue(ClearEscalation(r).(state := Running), id, header))
  {
    assert Open(r);
    PresentInOrder(header);
    hide EventsInOrder;
    hide MarksInOrder;
  }

  lemma ExpiredIsOrderly(r: Run, id: nat, a: Answer)
    requires Orderly(r) && id in r.tasks && r.tasks[id].AtExpiry?
    ensures Orderly(Expired(r, id, a))
  {
    WaiterStops(r, Expired(r, id, a), id);
    hide Orderly;
  }

  lemma AssertedIsOrderly(r: Run, id: nat)
    requires Orderly(r) && id in r.tasks && r.tasks[id] == AtCheckout(false)
    ensures Orderly(Move(Emit(r, CheckoutAsserted, Fine), id, AtCheckout(true)))
  {
    assert WorkerInStep(r, r.tasks[id]);
    EmitInOrder(r.shopify, r.events, CheckoutAsserted, Fine);
    hide EventsInOrder;
    hide MarksInOrder;
    WorkerMovesOn(r, Move(Emit(r, CheckoutAsserted, Fine), id, AtCheckout(true)), id, AtCheckout(true));
  }

  /** A task hears that the request was signed, and presents the header. */
  predicate Presents(r: Run, step: Step) {
    step.Answered? && step.answer.SignedReply? && step.id in r.tasks
    && (r.tasks[step.id].AtDecision? || r.tasks[step.id].AtResolution?)
  }

  /** Each step keeps the order, as long as no second signature is heard of. */
  lemma NextIsOrderly(r: Run, step: Step)
    requires Orderly(r) && (Presents(r, step) ==> r.marks == [])
    ensures Orderly(Next(r, step))
  {
    match step {
      case Answered(id, a) =>
        if id in r.tasks {
          if r.tasks[id].AtResolution? {
            ResolvedIsOrderly(r, id, a);
          } else if r.tasks[id].AtExpiry? {
            ExpiredIsOrderly(r, id, a);
          } else if Continuing(r.tasks[id]) {
            ContinuedIsOrderly(r, id, a);
          } else if Executing(r.tasks[id]) {
            ExecutedIsOrderly(r, id, a);
          }
        }
        hide Resolved;
        hide Expired;
        hide Continued;
        hide Orderly;
      case DomainAsserted(id) =>
        if id in r.tasks && r.tasks[id] == AtCheckout(false) {
          AssertedIsOrderly(r, id);
        }
        hide Orderly;
      case ResolveCalled(_) =>
        assert r.pending ==> Open(r);
      case TimerFires(_) =>
        assert r.timer ==> Open(r);
    }
  }

  // ---- What follows -----------------------------------------------------------------------------------

  /** What the order means for a reader of the run. */
  lemma OrderlyRuns(r: Run)
    requires Orderly(r)
    ensures forall j :: 0 <= j < |r.marks| && r.marks[j].HeaderPresented? ==> j == 0
    ensures r.state.Done? ==> r.marks != [] && r.marks[0].HeaderPresented? && r.marks == WayToDone(r.marks[0].header)
    ensures forall k :: 0 <= k < |r.events| ==>
              k < 8 && r.events[k].number == k + 1 && r.events[k].stage == Order(r.shopify)[k]
  {
    hide Order;
    if r.marks != [] {
      WayPresentsOnce(r.marks[0].header);
    }
    hide WayToDone;
  }

  lemma WayPresentsOnce(header: Header)
    ensures forall k :: 0 <= k < 6 ==>
              (WayToDone(header)[k].HeaderPresented? <==> k == 0) && WayToDone(header)[0] == HeaderPresented(header)
  {
  }

  lemma NextKeepsShopify(r: Run, step: Step)
    ensures Next(r, step).shopify == r.shopify
  {
    hide Executed;
    hide Continued;
    hide Resolved;
    hide Expired;
  }
}
