/**
 * A run of the orchestrator together with the policy service, the signer and the ledger: each start,
 * resolution or expiry of the run is one handler of policy for the run's request, and the run hears
 * what that handler answers, or an error. Everybody else may call policy and the ledger at any time.
 */
module RunOverPolicy {
  import opened Wrappers
  import opened LedgerStore
  import opened SignerService
  import opened SigningInvariant
  import opened SigningSafety
  import opened SigningAuthority
  import opened PolicyAnswers
  import P = SigningProtocol
  import R = RunPipeline
  import RunStatus

  /** `calls` says which handler of policy serves which task of the run. */
  datatype Joint = Joint(policy: World, run: R.Run, calls: map<nat, nat>)

  datatype Step =
    | Policy(step: P.Step)
    | Call(task: nat, handler: nat, call: P.Call)
    | Reply(task: nat)
    | Lost(task: nat, status: int)
    | Own(move: R.Step)

  predicate AtPolicy(p: R.Point) {
    p.AtDecision? || p.AtResolution? || p.AtExpiry?
  }

  /** What a task asks policy for at its await; a person's resolution is passed on as it came. */
  predicate Asks(p: R.Point, requestId: string, call: P.Call) {
    call.requestId == requestId
    && ((p.AtDecision? && call.Payment?) || (p.AtResolution? && call.Resolve?) || (p.AtExpiry? && call == ExpiryCall(requestId)))
  }

  predicate Waits(j: Joint, task: nat) {
    task in j.run.tasks && AtPolicy(j.run.tasks[task])
  }

  /** A handler that has answered; whether it was cut off afterwards no longer matters. */
  predicate Replied(j: Joint, task: nat) {
    Waits(j, task) && task in j.calls && j.calls[task] in j.policy.handlers
    && j.policy.handlers[j.calls[task]].point.Finished?
  }

  function AnswerOf(j: Joint, task: nat): R.Answer
    requires Replied(j, task)
  {
    var h := j.policy.handlers[j.calls[task]];
    AsAnswer(h.call, h.point.reply)
  }

  predicate IsOwn(j: Joint, step: R.Step) {
    step.Answered? ==> !Waits(j, step.id)
  }

  /** One step of the whole; a step that is not possible changes nothing. */
  function Next(j: Joint, requestId: string, step: Step, setup: P.Setup): Joint {
    match step
    case Policy(s) => j.(policy := P.Next(j.policy, s, setup))
    case Call(task, handler, call) =>
      if Waits(j, task) && task !in j.calls && handler !in j.policy.handlers && Asks(j.run.tasks[task], requestId, call)
      then j.(policy := P.Next(j.policy, P.Spawn(handler, call), setup), calls := j.calls[task := handler])
      else j
    case Reply(task) =>
      if Replied(j, task) then j.(run := R.Next(j.run, R.Answered(task, AnswerOf(j, task)))) else j
    case Lost(task, status) =>
      if Waits(j, task) then j.(run := R.Next(j.run, R.Answered(task, R.Threw(status)))) else j
    case Own(s) => if IsOwn(j, s) then j.(run := R.Next(j.run, s)) else j
  }

  function After(clock: Time, shopify: bool, requestId: string, steps: seq<Step>, setup: P.Setup): Joint {
    if steps == [] then Joint(P.Begin(clock), R.Started(shopify), map[])
    else Next(After(clock, shopify, requestId, steps[..|steps| - 1], setup), requestId, steps[|steps| - 1], setup)
  }

  // ---- The invariant --------------------------------------------------------------------------------

  /** Each call has its own handler, of this request, and its task never comes back to policy. */
  ghost predicate CallsSound(j: Joint, requestId: string) {
    && (forall t :: t in j.calls ==> CallSound(j, t, requestId))
    && (forall t, u :: t in j.calls && u in j.calls && j.calls[t] == j.calls[u] ==> t == u)
  }

  predicate CallSound(j: Joint, t: nat, requestId: string)
    requires t in j.calls
  {
    && t in j.run.tasks && !Restarts(j.run.tasks[t])
    && j.calls[t] in j.policy.handlers && j.policy.handlers[j.calls[t]].call.requestId == requestId
  }

  /** A point from which a task could still come to ask policy. */
  predicate Restarts(p: R.Point) {
    R.Executing(p) && !p.AtDecision?
  }

  /** A task of the run has presented the header that its handler reported as signed. */
  predicate PresentedBy(j: Joint, t: nat, header: R.Header) {
    t in j.calls && t in j.run.tasks && !AtPolicy(j.run.tasks[t])
    && j.calls[t] in j.policy.handlers && Reports(j.policy.handlers[j.calls[t]], header)
  }

  predicate Reports(h: Handler, header: R.Header) {
    h.point.Finished? && h.point.reply.SignedReply? && h.point.reply.header == header
  }

  ghost predicate HeaderReported(j: Joint) {
    j.run.marks != [] ==> j.run.marks[0].HeaderPresented? && exists t :: PresentedBy(j, t, j.run.marks[0].header)
  }

  ghost predicate Joined(j: Joint, requestId: string, setup: P.Setup) {
    Safe(j.policy, setup) && CallsSound(j, requestId) && HeaderReported(j) && R.Orderly(j.run)
  }

  // ---- Steps of policy --------------------------------------------------------------------------------

  /** Whatever happens, a handler keeps its request, and its answer once it has given one. */
  predicate Persists(h: Handler, next: Handler) {
    next.call == h.call && (h.point.Finished? ==> next.point == h.point)
  }

  lemma ResumePersists(h: Handler, env: P.Env, now: Time, setup: P.Setup)
    requires P.Answered(h)
    ensures Persists(h, P.Resumed(h, env, now, setup))
  {
    ResumeKeepsKind(h, env, now, setup);
    hide P.Resumed;
  }

  lemma PolicyPersists(w: World, step: P.Step, setup: P.Setup)
    ensures var after := P.Next(w, step, setup);
            forall a :: a in w.handlers ==> a in after.handlers && Persists(w.handlers[a], after.handlers[a])
  {
    if step.Resume? && step.id in w.handlers && P.Answered(w.handlers[step.id]) {
      ResumePersists(w.handlers[step.id], step.env, w.clock, setup);
    }
    hide P.Resumed;
    hide P.Answered;
    hide P.LedgerAfter;
    hide P.AnswerTo;
    hide Handle;
    hide Admit;
  }

  lemma PolicyKeeps(j: Joint, requestId: string, step: P.Step, setup: P.Setup)
    requires Joined(j, requestId, setup)
    ensures Joined(j.(policy := P.Next(j.policy, step, setup)), requestId, setup)
  {
    var after := j.(policy := P.Next(j.policy, step, setup));
    hide Safe;
    hide P.Next;
    hide R.Orderly;
    NextKeeps(j.policy, step, setup);
    PolicyPersists(j.policy, step, setup);
    forall t | t in after.calls
      ensures CallSound(after, t, requestId)
    {
      assert CallSound(j, t, requestId);
    }
    if after.run.marks != [] {
      var header := j.run.marks[0].header;
      var t :| PresentedBy(j, t, header);
      assert PresentedBy(after, t, header);
    }
  }

  lemma SpawnStarts(w: World, id: nat, call: P.Call, setup: P.Setup)
    requires id !in w.handlers
    ensures P.Next(w, P.Spawn(id, call), setup).handlers == w.handlers[id := P.Start(call)]
    ensures P.Start(call).call == call
  {
  }

  lemma CallKeeps(j: Joint, requestId: string, task: nat, handler: nat, call: P.Call, setup: P.Setup)
    requires Joined(j, requestId, setup) && Waits(j, task) && task !in j.calls && handler !in j.policy.handlers
    requires Asks(j.run.tasks[task], requestId, call)
    ensures Joined(j.(policy := P.Next(j.policy, P.Spawn(handler, call), setup), calls := j.calls[task := handler]),
                   requestId, setup)
  {
    hide P.Next;
    hide P.Start;
    hide R.Orderly;
    hide Safe;
    assert forall t :: t in j.calls ==> CallSound(j, t, requestId);
    PolicyKeeps(j, requestId, P.Spawn(handler, call), setup);
    SpawnStarts(j.policy, handler, call, setup);
    hide Joined;
    NewCallKeeps(j.(policy := P.Next(j.policy, P.Spawn(handler, call), setup)), requestId, task, handler, setup);
  }

  /** A new handler of the request is bound to a task that waits for one. */
  lemma NewCallKeeps(j: Joint, requestId: string, task: nat, handler: nat, setup: P.Setup)
    requires Joined(j, requestId, setup) && Waits(j, task) && task !in j.calls
    requires handler in j.policy.handlers && j.policy.handlers[handler].call.requestId == requestId
    requires forall t :: t in j.calls ==> j.calls[t] != handler
    ensures Joined(j.(calls := j.calls[task := handler]), requestId, setup)
  {
    var after := j.(calls := j.calls[task := handler]);
    hide Safe;
    hide R.Orderly;
    forall t | t in after.calls
      ensures CallSound(after, t, requestId)
    {
      if t != task {
        assert CallSound(j, t, requestId);
      }
    }
    if after.run.marks != [] {
      var header := j.run.marks[0].header;
      var t :| PresentedBy(j, t, header);
      assert PresentedBy(after, t, header);
    }
  }

  // ---- Steps of the run ------------------------------------------------------------------------------

  /** Tasks of the run do not come back to policy, and the first mark stays. */
  ghost predicate RunMoves(r: R.Run, next: R.Run) {
    && (forall t :: t in r.tasks ==> t in next.tasks && (!Restarts(r.tasks[t]) ==> !Restarts(next.tasks[t])))
    && (forall t :: t in r.tasks && !Restarts(r.tasks[t]) && !AtPolicy(r.tasks[t]) ==> !AtPolicy(next.tasks[t]))
    && r.marks <= next.marks
  }

  lemma OneMoves(r: R.Run, next: R.Run, id: nat, p: R.Point)
    requires id in r.tasks ==> !Restarts(p) || Restarts(r.tasks[id])
    requires id in r.tasks && !Restarts(r.tasks[id]) && !AtPolicy(r.tasks[id]) ==> !AtPolicy(p)
    requires next.tasks == r.tasks[id := p] && r.marks <= next.marks
    ensures RunMoves(r, next)
  {
  }

  lemma NothingMoves(r: R.Run, next: R.Run)
    requires next.tasks == r.tasks && next.marks == r.marks
    ensures RunMoves(r, next)
  {
  }

  lemma AnswerMoves(r: R.Run, id: nat, a: R.Answer)
    requires id in r.tasks
    ensures RunMoves(r, R.Next(r, R.Answered(id, a)))
  {
    var next := R.Next(r, R.Answered(id, a));
    if R.Executing(r.tasks[id]) {
      ExecutedMoves(r, id, a);
    } else if R.Continuing(r.tasks[id]) {
      ContinuedMoves(r, id, a);
    } else {
      WaiterMoves(r, id, a);
    }
    hide R.Executed;
    hide R.Continued;
    hide R.Resolved;
    hide R.Expired;
    hide RunMoves;
    if r.tasks[id].Over? {
      NothingMoves(r, next);
    }
  }

  lemma ExecutedMoves(r: R.Run, id: nat, a: R.Answer)
    requires id in r.tasks && R.Executing(r.tasks[id])
    ensures RunMoves(r, R.Executed(r, id, r.tasks[id], a))
  {
    var next := R.Executed(r, id, r.tasks[id], a);
    assert next.tasks == r.tasks[id := next.tasks[id]] && r.marks <= next.marks;
    assert r.tasks[id].AtDecision? ==> !R.Executing(next.tasks[id]);
    hide RunMoves;
    hide R.Executed;
    OneMoves(r, next, id, next.tasks[id]);
  }

  lemma ContinuedMoves(r: R.Run, id: nat, a: R.Answer)
    requires id in r.tasks && R.Continuing(r.tasks[id])
    ensures RunMoves(r, R.Continued(r, id, r.tasks[id], a))
  {
    var next := R.Continued(r, id, r.tasks[id], a);
    ContinuedActs(r, id, a);
    ContinuedLands(r, id, a);
    hide R.Continued;
    hide RunMoves;
    OneMoves(r, next, id, next.tasks[id]);
  }

  lemma ContinuedLands(r: R.Run, id: nat, a: R.Answer)
    requires id in r.tasks && R.Continuing(r.tasks[id])
    ensures var next := R.Continued(r, id, r.tasks[id], a);
            && id in next.tasks && next.tasks == r.tasks[id := next.tasks[id]]
            && !R.Executing(next.tasks[id]) && !AtPolicy(next.tasks[id])
  {
    if a.Replied? {
      RepliedLands(r, id);
      hide R.Continued;
    }
  }

  lemma RepliedLands(r: R.Run, id: nat)
    requires id in r.tasks && R.Continuing(r.tasks[id])
    ensures var next := R.Continued(r, id, r.tasks[id], R.Replied);
            && id in next.tasks && next.tasks == r.tasks[id := next.tasks[id]]
            && !R.Executing(next.tasks[id]) && !AtPolicy(next.tasks[id])
  {
    assert r.tasks[id := r.tasks[id]] == r.tasks;
  }

  lemma ContinuedActs(r: R.Run, id: nat, a: R.Answer)
    requires id in r.tasks && R.Continuing(r.tasks[id])
    ensures r.marks <= R.Continued(r, id, r.tasks[id], a).marks
  {
  }

  lemma WaiterMoves(r: R.Run, id: nat, a: R.Answer)
    requires id in r.tasks
    ensures !Restarts(r.tasks[id]) ==> RunMoves(r, R.Resolved(r, id, a)) && RunMoves(r, R.Expired(r, id, a))
  {
    if !Restarts(r.tasks[id]) {
      var next, expired := R.Resolved(r, id, a), R.Expired(r, id, a);
      assert next.tasks == r.tasks[id := next.tasks[id]] && r.marks <= next.marks;
      assert expired.tasks == r.tasks[id := R.Over] && expired.marks == r.marks;
      assert !R.Executing(next.tasks[id]) && !AtPolicy(next.tasks[id]);
      hide RunMoves;
      hide R.Resolved;
      hide R.Expired;
      OneMoves(r, next, id, next.tasks[id]);
      OneMoves(r, expired, id, R.Over);
    }
  }

  lemma StepMoves(r: R.Run, step: R.Step)
    ensures RunMoves(r, R.Next(r, step))
  {
    var next := R.Next(r, step);
    if step.Answered? && step.id in r.tasks {
      AnswerMoves(r, step.id, step.answer);
    } else {
      hide R.Executed;
      hide R.Continued;
      hide R.Resolved;
      hide R.Expired;
      if next.tasks == r.tasks {
        NothingMoves(r, next);
      } else {
        OneMoves(r, next, step.id, next.tasks[step.id]);
      }
    }
  }

  /** A step of the run after which the presented header is still, or newly, a reported one. */
  lemma RunStepKeeps(j: Joint, requestId: string, step: R.Step, setup: P.Setup)
    requires Joined(j, requestId, setup) && (R.Presents(j.run, step) ==> j.run.marks == [])
    requires var after := j.(run := R.Next(j.run, step));
             j.run.marks == [] ==> HeaderReported(after)
    ensures Joined(j.(run := R.Next(j.run, step)), requestId, setup)
  {
    var after := j.(run := R.Next(j.run, step));
    hide R.Next;
    hide R.Presents;
    hide R.Orderly;
    hide Safe;
    R.NextIsOrderly(j.run, step);
    StepMoves(j.run, step);
    forall t | t in after.calls
      ensures CallSound(after, t, requestId)
    {
      assert CallSound(j, t, requestId);
    }
    if j.run.marks != [] {
      var header := j.run.marks[0].header;
      var t :| PresentedBy(j, t, header);
      assert CallSound(j, t, requestId);
      assert PresentedBy(after, t, header);
    }
  }

  /** A step that hears of no signature presents nothing. */
  lemma QuietStep(r: R.Run, step: R.Step)
    requires R.Orderly(r) && !R.Presents(r, step) && r.marks == []
    ensures R.Next(r, step).marks == []
  {
    if step.Answered? && step.id in r.tasks {
      assert R.WorkerInStep(r, r.tasks[step.id]);
    }
    hide R.Orderly;
  }

  lemma UnpresentingKeeps(j: Joint, requestId: string, step: R.Step, setup: P.Setup)
    requires Joined(j, requestId, setup) && !R.Presents(j.run, step)
    ensures Joined(j.(run := R.Next(j.run, step)), requestId, setup)
  {
    if j.run.marks == [] {
      QuietStep(j.run, step);
    }
    hide R.Next;
    hide R.Presents;
    hide R.Orderly;
    hide Safe;
    RunStepKeeps(j, requestId, step, setup);
  }

  lemma AnswerIsTheReply(call: P.Call, reply: P.PolicyReply)
    ensures AsAnswer(call, reply).SignedReply? <==> reply.SignedReply?
    ensures reply.SignedReply? ==> AsAnswer(call, reply) == R.SignedReply(reply.header)
  {
  }

  lemma PresentsTheHeader(r: R.Run, task: nat, header: R.Header)
    requires task in r.tasks && (r.tasks[task].AtDecision? || r.tasks[task].AtResolution?) && r.marks == []
    ensures var next := R.Next(r, R.Answered(task, R.SignedReply(header)));
            next.marks == [R.HeaderPresented(header)] && task in next.tasks && next.tasks[task].AtIssue?
  {
  }

  /** Policy answers one of the run's tasks: a signature is heard of for the first time. */
  lemma ReplyKeeps(j: Joint, requestId: string, task: nat, setup: P.Setup)
    requires Joined(j, requestId, setup) && Replied(j, task)
    ensures Joined(j.(run := R.Next(j.run, R.Answered(task, AnswerOf(j, task)))), requestId, setup)
  {
    var h := j.policy.handlers[j.calls[task]];
    var step := R.Answered(task, AnswerOf(j, task));
    AnswerIsTheReply(h.call, h.point.reply);
    hide AsAnswer;
    hide R.Next;
    hide R.Orderly;
    hide Safe;
    if R.Presents(j.run, step) {
      FirstToHear(j, requestId, task, setup);
      hide Joined;
      PresentingKeeps(j, requestId, task, h.point.reply.header, setup);
    } else {
      hide Joined;
      UnpresentingKeeps(j, requestId, step, setup);
    }
  }

  lemma PresentingKeeps(j: Joint, requestId: string, task: nat, header: R.Header, setup: P.Setup)
    requires Joined(j, requestId, setup) && Replied(j, task) && Reports(j.policy.handlers[j.calls[task]], header)
    requires (j.run.tasks[task].AtDecision? || j.run.tasks[task].AtResolution?) && j.run.marks == []
    ensures Joined(j.(run := R.Next(j.run, R.Answered(task, R.SignedReply(header)))), requestId, setup)
  {
    var after := j.(run := R.Next(j.run, R.Answered(task, R.SignedReply(header))));
    hide R.Next;
    hide R.Orderly;
    hide Safe;
    PresentsTheHeader(j.run, task, header);
    assert PresentedBy(after, task, header);
    hide Joined;
    hide PresentedBy;
    RunStepKeeps(j, requestId, R.Answered(task, R.SignedReply(header)), setup);
  }

  lemma FirstToHear(j: Joint, requestId: string, task: nat, setup: P.Setup)
    requires Joined(j, requestId, setup) && Replied(j, task)
    requires j.policy.handlers[j.calls[task]].point.reply.SignedReply?
    ensures j.run.marks == []
  {
    if j.run.marks != [] {
      var t :| PresentedBy(j, t, j.run.marks[0].header);
      assert CallSound(j, t, requestId) && CallSound(j, task, requestId);
      hide R.Orderly;
      OneReporter(j.policy, j.calls[t], j.calls[task], setup);
    }
  }

  // ---- Every run ---------------------------------------------------------------------------------------

  lemma NextKeepsJoined(j: Joint, requestId: string, step: Step, setup: P.Setup)
    requires Joined(j, requestId, setup)
    ensures Joined(Next(j, requestId, step, setup), requestId, setup)
  {
    hide P.Next;
    hide R.Next;
    hide Joined;
    hide Asks;
    hide AnswerOf;
    match step {
      case Policy(s) => PolicyKeeps(j, requestId, s, setup);
      case Call(task, handler, call) =>
        if Waits(j, task) && task !in j.calls && handler !in j.policy.handlers && Asks(j.run.tasks[task], requestId, call) {
          CallKeeps(j, requestId, task, handler, call, setup);
        }
      case Reply(task) =>
        if Replied(j, task) {
          ReplyKeeps(j, requestId, task, setup);
        }
      case Lost(task, status) =>
        if Waits(j, task) {
          UnpresentingKeeps(j, requestId, R.Answered(task, R.Threw(status)), setup);
        }
      case Own(s) =>
        if IsOwn(j, s) {
          UnpresentingKeeps(j, requestId, s, setup);
        }
    }
  }

  lemma {:induction false} EveryRunIsJoined(clock: Time, shopify: bool, requestId: string, steps: seq<Step>, setup: P.Setup)
    ensures Joined(After(clock, shopify, requestId, steps, setup), requestId, setup)
    ensures After(clock, shopify, requestId, steps, setup).run.shopify == shopify
  {
    if steps == [] {
      BeginIsSafe(clock, setup);
      hide Safe;
    } else {
      var front := After(clock, shopify, requestId, steps[..|steps| - 1], setup);
      EveryRunIsJoined(clock, shopify, requestId, steps[..|steps| - 1], setup);
      NextKeepsJoined(front, requestId, steps[|steps| - 1], setup);
      NextKeepsShopify(front, requestId, steps[|steps| - 1], setup);
      hide Joined;
      hide Next;
    }
  }

  lemma NextKeepsShopify(j: Joint, requestId: string, step: Step, setup: P.Setup)
    ensures Next(j, requestId, step, setup).run.shopify == j.run.shopify
  {
    forall s
      ensures R.Next(j.run, s).shopify == j.run.shopify
    {
      R.NextKeepsShopify(j.run, s);
    }
    hide P.Next;
    hide R.Next;
  }

  /** What policy, the signer and the ledger do beside a run is a run of the signing protocol. */
  lemma {:induction false} PolicyRuns(clock: Time, shopify: bool, requestId: string, steps: seq<Step>, setup: P.Setup)
    returns (ps: seq<P.Step>)
    ensures After(clock, shopify, requestId, steps, setup).policy == P.Run(clock, ps, setup)
  {
    hide P.Next;
    hide R.Next;
    if steps == [] {
      ps := [];
    } else {
      var step := steps[|steps| - 1];
      var front := PolicyRuns(clock, shopify, requestId, steps[..|steps| - 1], setup);
      var j := After(clock, shopify, requestId, steps[..|steps| - 1], setup);
      if step.Policy? {
        ps := front + [step.step];
      } else if step.Call? {
        ps := front + [P.Spawn(step.handler, step.call)];
        if Next(j, requestId, step, setup) == j {
          ps := front;
        }
      } else {
        ps := front;
      }
      assert ps != front ==> ps[..|ps| - 1] == front;
    }
  }

  /**
   * In every interleaving a run presents one header at most, first of all; it is the one signature
   * emitted for the request, made for a call of this run and with authority; DONE is reached only
   * along the one way from it; and the events are a prefix of the documented order, numbered from 1.
   */
  lemma PresentedHeaderWasSigned(clock: Time, shopify: bool, requestId: string, steps: seq<Step>, setup: P.Setup)
    ensures var j := After(clock, shopify, requestId, steps, setup);
            && (forall n :: 0 <= n < |j.run.marks| && j.run.marks[n].HeaderPresented? ==> n == 0)
            && (j.run.marks != [] ==> j.run.marks[0].HeaderPresented?)
            && (j.run.marks != [] ==>
                  exists t :: t in j.calls && SignedFor(j, t, requestId, j.run.marks[0].header, setup))
            && (j.run.state.Done? ==>
                  j.run.marks != [] && j.run.marks[0].HeaderPresented? && j.run.marks == R.WayToDone(j.run.marks[0].header))
            && (forall k :: 0 <= k < |j.run.events| ==>
                  k < 8 && j.run.events[k].number == k + 1 && j.run.events[k].stage == R.Order(shopify)[k])
  {
    var j := After(clock, shopify, requestId, steps, setup);
    EveryRunIsJoined(clock, shopify, requestId, steps, setup);
    var ps := PolicyRuns(clock, shopify, requestId, steps, setup);
    hide After;
    R.OrderlyRuns(j.run);
    hide R.Orderly;
    hide R.WayToDone;
    hide R.Order;
    if j.run.marks != [] {
      var header := j.run.marks[0].header;
      var t :| PresentedBy(j, t, header);
      assert CallSound(j, t, requestId);
      ReporterSigned(j.policy, j.calls[t], setup);
      hide Safe;
      OnlyOneSigned(clock, ps, setup, requestId);
      EverySignatureHasAuthority(clock, ps, setup, P.Signature(j.calls[t], requestId, header));
      hide HasAuthority;
      assert SignedFor(j, t, requestId, header, setup);
    }
  }

  /** The header is the only signature for the request, emitted for the handler of task t, with authority. */
  ghost predicate SignedFor(j: Joint, t: nat, requestId: string, header: R.Header, setup: P.Setup)
    requires t in j.calls
  {
    var g := P.Signature(j.calls[t], requestId, header);
    && g in j.policy.signatures && (forall f :: f in j.policy.signatures && f.requestId == requestId ==> f == g)
    && g.handler in j.policy.handlers && HasAuthority(g, j.policy.handlers[g.handler], setup)
  }

  lemma OnlyOneSigned(clock: Time, ps: seq<P.Step>, setup: P.Setup, requestId: string)
    ensures var signatures := P.Run(clock, ps, setup).signatures;
            forall f, g :: f in signatures && g in signatures && f.requestId == requestId == g.requestId ==> f == g
  {
    SignedAtMostOnce(clock, ps, setup);
    hide P.Run;
  }

  // ---- What the feed tells --------------------------------------------------------------------------------

  /** The answer that a task of the run hears in a step: policy's own, a lost call, or another service's. */
  function HeardIn(j: Joint, step: Step): seq<RunStatus.Word> {
    match step
    case Reply(task) => if Replied(j, task) then [RunStatus.Word(j.run.tasks[task], AnswerOf(j, task))] else []
    case Lost(task, status) => if Waits(j, task) then [RunStatus.Word(j.run.tasks[task], R.Threw(status))] else []
    case Own(s) =>
      if IsOwn(j, s) && s.Answered? && s.id in j.run.tasks then [RunStatus.Word(j.run.tasks[s.id], s.answer)] else []
    case _ => []
  }

  function Heard(clock: Time, shopify: bool, requestId: string, steps: seq<Step>, setup: P.Setup): seq<RunStatus.Word> {
    if steps == [] then [] else
      var front := steps[..|steps| - 1];
      Heard(clock, shopify, requestId, front, setup)
      + HeardIn(After(clock, shopify, requestId, front, setup), steps[|steps| - 1])
  }

  lemma OnceAtMost(j: Joint, requestId: string, task: nat, setup: P.Setup)
    requires Joined(j, requestId, setup) && Replied(j, task)
    ensures R.Presents(j.run, R.Answered(task, AnswerOf(j, task))) ==> j.run.marks == []
  {
    hide Joined;
    hide AsAnswer;
    var h := j.policy.handlers[j.calls[task]];
    AnswerIsTheReply(h.call, h.point.reply);
    if h.point.reply.SignedReply? {
      FirstToHear(j, requestId, task, setup);
    }
  }

  lemma NextTold(j: Joint, requestId: string, step: Step, heard: seq<RunStatus.Word>, setup: P.Setup)
    requires Joined(j, requestId, setup) && RunStatus.Told(j.run, heard)
    ensures RunStatus.Told(Next(j, requestId, step, setup).run, heard + HeardIn(j, step))
  {
    hide RunStatus.Told;
    hide R.Next;
    hide P.Next;
    hide AnswerOf;
    assert R.Orderly(j.run) by { hide R.Orderly; hide Safe; }
    hide R.Orderly;
    assert heard + [] == heard;
    match step {
      case Policy(_) =>
      case Call(_, _, _) =>
      case Reply(task) =>
        if Replied(j, task) {
          OnceAtMost(j, requestId, task, setup);
          RunStatus.AnswerTold(j.run, task, AnswerOf(j, task), heard);
        }
      case Lost(task, status) =>
        if Waits(j, task) {
          RunStatus.AnswerTold(j.run, task, R.Threw(status), heard);
        }
      case Own(s) =>
        if IsOwn(j, s) {
          if s.Answered? && s.id in j.run.tasks {
            RunStatus.AnswerTold(j.run, s.id, s.answer, heard);
          } else {
            RunStatus.OtherStepTold(j.run, s, heard);
          }
        }
    }
    hide Joined;
  }

  lemma {:induction false} EveryRunIsTold(clock: Time, shopify: bool, requestId: string, steps: seq<Step>, setup: P.Setup)
    ensures RunStatus.Told(After(clock, shopify, requestId, steps, setup).run, Heard(clock, shopify, requestId, steps, setup))
  {
    hide Next;
    hide HeardIn;
    if steps == [] {
      RunStatus.StartIsTold(shopify);
      NothingIsHeard(clock, shopify, requestId, setup);
    } else {
      hide RunStatus.Told;
      hide Joined;
      var front := steps[..|steps| - 1];
      EveryRunIsTold(clock, shopify, requestId, front, setup);
      EveryRunIsJoined(clock, shopify, requestId, front, setup);
      NextTold(After(clock, shopify, requestId, front, setup), requestId, steps[|steps| - 1],
               Heard(clock, shopify, requestId, front, setup), setup);
    }
  }

  lemma NothingIsHeard(clock: Time, shopify: bool, requestId: string, setup: P.Setup)
    ensures RunStatus.Told(After(clock, shopify, requestId, [], setup).run, Heard(clock, shopify, requestId, [], setup))
  {
  }

  /**
   * In every interleaving of a run with the services behind it, the feed announces policy's decision as
   * policy gave it to this run, the settlement as final exactly when the transfer matched and settlement
   * and capture were stored, as refused exactly when the transfer did not match, and all else as done.
   */
  lemma FeedTellsTheRun(clock: Time, shopify: bool, requestId: string, steps: seq<Step>, setup: P.Setup)
    ensures RunStatus.StatusesTold(After(clock, shopify, requestId, steps, setup).run,
                                   Heard(clock, shopify, requestId, steps, setup))
  {
    hide After;
    hide Heard;
    hide RunStatus.Told;
    hide RunStatus.StatusesTold;
    EveryRunIsTold(clock, shopify, requestId, steps, setup);
    EveryRunIsJoined(clock, shopify, requestId, steps, setup);
    hide R.Orderly;
    hide Safe;
    RunStatus.ToldByStage(After(clock, shopify, requestId, steps, setup).run, Heard(clock, shopify, requestId, steps, setup));
  }
}
