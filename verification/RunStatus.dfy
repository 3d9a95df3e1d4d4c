/**
 * What a run's feed and state tell against what the run heard: the status of each event, and the
 * state, after any steps.
 */
module RunStatus {
  import opened Wrappers
  import opened RunPipeline
  import opened RunTerminal

  /** An answer that a task heard where it was stopped. */
  datatype Word = Word(point: Point, answer: Answer)

  /** All answers heard along a run, in order. */
  function Heard(shopify: bool, steps: seq<Step>): seq<Word> {
    if steps == [] then [] else
      var front, last := steps[..|steps| - 1], steps[|steps| - 1];
      var r := After(shopify, front);
      if last.Answered? && last.id in r.tasks then Heard(shopify, front) + [Word(r.tasks[last.id], last.answer)]
      else Heard(shopify, front)
  }

  // ---- The state ------------------------------------------------------------------------------------

  /** What an answer makes of the state, if it says anything about it. */
  function Says(w: Word): Option<RunState> {
    match w.point
    case AtDecision =>
      (match w.answer
       case SignedReply(_) => None
       case RefusedReply => Some(Refused)
       case EscalatedReply => Some(Escalated)
       case _ => Some(Failed))
    case AtResolution =>
      (match w.answer
       case SignedReply(_) => Some(Running)
       case RefusedReply => Some(Refused)
       case Threw(status) => if status == 410 then Some(Refused) else None
       case _ => None)
    case AtExpiry => if w.answer.Threw? && w.answer.status != 410 then Some(Failed) else Some(Refused)
    case AtIssue => Some(if w.answer.Replied? then AwaitingCheckout else Failed)
    case AtCapture => Some(if w.answer.Replied? then Done else Failed)
    case Over => None
    case _ => if w.answer.Replied? then None else Some(Failed)
  }

  function StateHeard(heard: seq<Word>): RunState {
    if heard == [] then Running else
      var said := Says(heard[|heard| - 1]);
      if said.Some? then said.value else StateHeard(heard[..|heard| - 1])
  }

  lemma HeardOneMore(heard: seq<Word>, w: Word)
    ensures StateHeard(heard + [w]) == if Says(w).Some? then Says(w).value else StateHeard(heard)
  {
    assert (heard + [w])[..|heard|] == heard;
  }

  lemma AnswerSays(r: Run, id: nat, a: Answer)
    requires id in r.tasks
    ensures var said := Says(Word(r.tasks[id], a));
            Next(r, Answered(id, a)).state == if said.Some? then said.value else r.state
  {
    if Executing(r.tasks[id]) {
      ExecutedSays(r, id, a);
    } else if Continuing(r.tasks[id]) {
      ContinuedSays(r, id, a);
    } else {
      hide Executed;
      hide Continued;
      if r.tasks[id].Over? {
        OverStays(r, id, a);
      }
    }
    hide Executed;
    hide Continued;
  }

  lemma OverStays(r: Run, id: nat, a: Answer)
    requires id in r.tasks && r.tasks[id].Over?
    ensures Next(r, Answered(id, a)) == r
  {
  }

  lemma ExecutedSays(r: Run, id: nat, a: Answer)
    requires id in r.tasks && Executing(r.tasks[id])
    ensures var said := Says(Word(r.tasks[id], a));
            Executed(r, id, r.tasks[id], a).state == if said.Some? then said.value else r.state
  {
  }

  lemma ContinuedSays(r: Run, id: nat, a: Answer)
    requires id in r.tasks && Continuing(r.tasks[id])
    ensures var said := Says(Word(r.tasks[id], a));
            Continued(r, id, r.tasks[id], a).state == if said.Some? then said.value else r.state
  {
  }

  lemma OtherStepsSayNothing(r: Run, step: Step)
    requires step.Answered? ==> step.id !in r.tasks
    ensures Next(r, step).state == r.state
  {
    hide Executed;
    hide Continued;
    hide Resolved;
    hide Expired;
  }

  /** In every run the state is what the last answer that says anything about it made of it. */
  lemma {:induction false} StateIsTheLastWord(shopify: bool, steps: seq<Step>)
    ensures After(shopify, steps).state == StateHeard(Heard(shopify, steps))
    decreases |steps|
  {
    hide Next;
    hide Says;
    if steps != [] {
      var front, last := steps[..|steps| - 1], steps[|steps| - 1];
      var r := After(shopify, front);
      StateIsTheLastWord(shopify, front);
      if last.Answered? && last.id in r.tasks {
        AnswerSays(r, last.id, last.answer);
        HeardOneMore(Heard(shopify, front), Word(r.tasks[last.id], last.answer));
      } else {
        OtherStepsSayNothing(r, last);
      }
    }
  }

  // ---- The open escalation ----------------------------------------------------------------------------

  /** What an answer makes of whether an escalation of the run is open, if it says anything about it. */
  function Opens(w: Word): Option<bool> {
    match w.point
    case AtDecision => if w.answer.EscalatedReply? then Some(true) else None
    case AtResolution => if w.answer.Threw? && w.answer.status != 410 then None else Some(false)
    case AtExpiry => Some(false)
    case _ => None
  }

  function OpenHeard(heard: seq<Word>): bool {
    if heard == [] then false else
      var said := Opens(heard[|heard| - 1]);
      if said.Some? then said.value else OpenHeard(heard[..|heard| - 1])
  }

  /** Whether the expiry timer is armed: from the escalation until it fires, or until an answer to it is heard. */
  function Armed(shopify: bool, steps: seq<Step>): bool {
    if steps == [] then false else
      var front, last := steps[..|steps| - 1], steps[|steps| - 1];
      var r := After(shopify, front);
      match last
      case Answered(id, a) =>
        if id in r.tasks && !r.tasks[id].AtExpiry? && Opens(Word(r.tasks[id], a)).Some?
        then Opens(Word(r.tasks[id], a)).value else Armed(shopify, front)
      case TimerFires(id) => id in r.tasks && Armed(shopify, front)
      case _ => Armed(shopify, front)
  }

  predicate OpensAs(r: Run, next: Run, w: Word) {
    var said := Opens(w);
    && next.pending == (if said.Some? then said.value else r.pending)
    && next.timer == if said.Some? && !w.point.AtExpiry? then said.value else r.timer
  }

  lemma AnswerOpens(r: Run, id: nat, a: Answer)
    requires id in r.tasks
    ensures OpensAs(r, Next(r, Answered(id, a)), Word(r.tasks[id], a))
  {
    hide Executed;
    hide Continued;
    if Executing(r.tasks[id]) {
      ExecutedOpens(r, id, a);
    } else if Continuing(r.tasks[id]) {
      ContinuedOpens(r, id, a);
    } else if r.tasks[id].Over? {
      OverStays(r, id, a);
    }
  }

  lemma ExecutedOpens(r: Run, id: nat, a: Answer)
    requires id in r.tasks && Executing(r.tasks[id])
    ensures OpensAs(r, Executed(r, id, r.tasks[id], a), Word(r.tasks[id], a))
  {
  }

  lemma ContinuedOpens(r: Run, id: nat, a: Answer)
    requires id in r.tasks && Continuing(r.tasks[id])
    ensures OpensAs(r, Continued(r, id, r.tasks[id], a), Word(r.tasks[id], a))
  {
  }

  lemma OtherStepsOpenNothing(r: Run, step: Step)
    requires step.Answered? ==> step.id !in r.tasks
    ensures Next(r, step).pending == r.pending
    ensures Next(r, step).timer == (r.timer && (step.TimerFires? ==> step.id in r.tasks))
  {
    hide Executed;
    hide Continued;
    hide Resolved;
    hide Expired;
  }

  /** In every run an escalation is open, and its timer armed, exactly as the run heard and the timer fired. */
  lemma {:induction false} EscalationIsTheLastWord(shopify: bool, steps: seq<Step>)
    ensures After(shopify, steps).pending == OpenHeard(Heard(shopify, steps))
    ensures After(shopify, steps).timer == Armed(shopify, steps)
    decreases |steps|
  {
    hide Next;
    hide Opens;
    if steps != [] {
      var front, last := steps[..|steps| - 1], steps[|steps| - 1];
      var r := After(shopify, front);
      EscalationIsTheLastWord(shopify, front);
      if last.Answered? && last.id in r.tasks {
        var w := Word(r.tasks[last.id], last.answer);
        AnswerOpens(r, last.id, last.answer);
        assert (Heard(shopify, front) + [w])[..|Heard(shopify, front)|] == Heard(shopify, front);
      } else {
        OtherStepsOpenNothing(r, last);
      }
    }
  }

  // ---- The status of each event ---------------------------------------------------------------------------

  /** What the feed announces of an answer of policy to the start of the run. */
  function Announced(a: Answer): Option<Status> {
    match a
    case SignedReply(_) => Some(Fine)
    case RefusedReply => Some(Refusal)
    case EscalatedReply => Some(Escalation)
    case _ => None
  }

  /** Policy answered the start of the run with this. */
  predicate Answers(w: Word, status: Status) {
    w.point.AtDecision? && Announced(w.answer) == Some(status)
  }

  const NO_MATCH: Word := Word(AtConfirm, Declined)

  const DECISION: nat := 3
  const LAST: nat := 7

  /** The same by the place of each event in the order of stages. */
  ghost predicate Told(r: Run, heard: seq<Word>) {
    && |r.events| <= 8
    && (forall k :: 0 <= k < |r.events| && k != DECISION && k != LAST ==> r.events[k].status == Fine)
    && (|r.events| > DECISION ==> exists w :: w in heard && Answers(w, r.events[DECISION].status))
    && (forall w, status :: w in heard && Answers(w, status) ==> |r.events| > DECISION && r.events[DECISION].status == status)
    && (|r.events| > LAST ==>
          if r.events[LAST].status == Fine then |r.marks| == 6
          else r.events[LAST].status == Refusal && |r.marks| <= 4 && NO_MATCH in heard)
    && (NO_MATCH in heard ==> |r.events| > LAST && r.events[LAST].status == Refusal)
    && (|r.marks| <= 4 || (|r.marks| == 6 && |r.events| > LAST && r.events[LAST].status == Fine))
  }

  /** Nothing that the feed tells of changes. */
  lemma NothingNew(r: Run, next: Run, heard: seq<Word>)
    requires Told(r, heard) && next.events == r.events && next.marks == r.marks
    ensures Told(next, heard)
  {
    hide Answers;
  }

  lemma HeardInVain(r: Run, heard: seq<Word>, w: Word)
    requires Told(r, heard) && w != NO_MATCH && (w.point.AtDecision? ==> Announced(w.answer).None?)
    ensures Told(r, heard + [w])
  {
    var more := heard + [w];
    assert forall v :: v in heard ==> v in more;
    assert forall status :: !Answers(w, status);
    hide Answers;
  }

  /** One more stage that went well. */
  lemma OneMoreFine(r: Run, next: Run, heard: seq<Word>, stage: Stage)
    requires Told(r, heard) && |r.events| != DECISION && |r.events| < LAST
    requires next.events == Emit(r, stage, Fine).events && |next.marks| <= 4
    ensures Told(next, heard)
  {
    hide Answers;
  }

  /** One more act on the way, with no event. */
  lemma OneMoreMark(r: Run, next: Run, heard: seq<Word>)
    requires Told(r, heard) && |r.marks| <= 3 && |next.marks| <= 4 && next.events == r.events
    requires |r.events| > LAST ==> r.events[LAST].status == Refusal
    ensures Told(next, heard)
  {
    hide Answers;
  }

  /** Policy's answer to the start of the run is announced as what it is. */
  lemma DecisionTold(r: Run, next: Run, heard: seq<Word>, a: Answer)
    requires Told(r, heard) && |r.events| == DECISION && Announced(a).Some? && |next.marks| <= 4
    requires next.events == Emit(r, PolicyDecision, Announced(a).value).events
    ensures Told(next, heard + [Word(AtDecision, a)])
  {
    var w := Word(AtDecision, a);
    var more := heard + [w];
    assert w in more && Answers(w, Announced(a).value);
    assert NO_MATCH in more <==> NO_MATCH in heard;
    forall v, status | v in more && Answers(v, status)
      ensures next.events[DECISION].status == status
    {
      assert v in heard || v == w;
    }
  }

  /** A transfer that does not match is announced as refused. */
  lemma NoMatchTold(r: Run, next: Run, heard: seq<Word>)
    requires Told(r, heard) && |r.events| == LAST && |r.marks| <= 4 && next.marks == r.marks
    requires next.events == Emit(r, SettlementFinalized, Refusal).events
    ensures Told(next, heard + [NO_MATCH])
  {
    var more := heard + [NO_MATCH];
    assert NO_MATCH in more;
    assert forall v :: v in heard ==> v in more;
    assert forall status :: !Answers(NO_MATCH, status);
    hide Answers;
  }

  /** Only after the capture is the settlement announced as final. */
  lemma CaptureTold(r: Run, next: Run, heard: seq<Word>)
    requires Told(r, heard) && |r.events| == LAST && |next.marks| == 6
    requires next.events == Emit(r, SettlementFinalized, Fine).events
    ensures Told(next, heard)
  {
    hide Answers;
  }

  /** An answer that brings no event and no act. */
  lemma VainAnswer(r: Run, next: Run, heard: seq<Word>, w: Word)
    requires Told(r, heard) && w != NO_MATCH && (w.point.AtDecision? ==> Announced(w.answer).None?)
    requires next.events == r.events && next.marks == r.marks
    ensures Told(next, heard + [w])
  {
    hide Told;
    HeardInVain(r, heard, w);
    NothingNew(r, next, heard + [w]);
  }

  lemma FineAnswer(r: Run, next: Run, heard: seq<Word>, w: Word, stage: Stage)
    requires Told(r, heard) && w != NO_MATCH && !w.point.AtDecision? && |r.events| != DECISION && |r.events| < LAST
    requires next.events == Emit(r, stage, Fine).events && |next.marks| <= 4
    ensures Told(next, heard + [w])
  {
    hide Told;
    HeardInVain(r, heard, w);
    OneMoreFine(r, next, heard + [w], stage);
  }

  lemma MarkAnswer(r: Run, next: Run, heard: seq<Word>, w: Word)
    requires Told(r, heard) && w != NO_MATCH && (w.point.AtDecision? ==> Announced(w.answer).None?)
    requires |r.marks| <= 3 && |next.marks| <= 4 && next.events == r.events && |r.events| <= LAST
    ensures Told(next, heard + [w])
  {
    HeardInVain(r, heard, w);
    OneMoreMark(r, next, heard + [w]);
    hide Told;
  }

  lemma ExecutedTold(r: Run, id: nat, a: Answer, heard: seq<Word>)
    requires Orderly(r) && Told(r, heard) && id in r.tasks && Executing(r.tasks[id])
    ensures Told(Executed(r, id, r.tasks[id], a), heard + [Word(r.tasks[id], a)])
  {
    hide Told;
    var next, w := Executed(r, id, r.tasks[id], a), Word(r.tasks[id], a);
    assert |r.events| == EventsAt(r.tasks[id]) && |r.marks| == 0 by {
      assert WorkerInStep(r, r.tasks[id]);
    }
    hide Orderly;
    match r.tasks[id] {
      case AtIntent =>
        if a.Replied? {
          FineAnswer(r, next, heard, w, IntentCreated);
        } else {
          VainAnswer(r, next, heard, w);
        }
      case AtDiscovery =>
        if a.Replied? || a.Declined? {
          FineAnswer(r, next, heard, w, if r.shopify then CheckoutAcquired else DiscoveryDone);
        } else {
          VainAnswer(r, next, heard, w);
        }
      case AtCard =>
        if a.Replied? {
          FineAnswer(r, next, heard, w, ChallengeReceived);
        } else {
          VainAnswer(r, next, heard, w);
        }
      case AtAttach => VainAnswer(r, next, heard, w);
      case AtDecision =>
        if Announced(a).Some? {
          DecisionTold(r, next, heard, a);
        } else {
          VainAnswer(r, next, heard, w);
        }
    }
  }

  lemma ContinuedTold(r: Run, id: nat, a: Answer, heard: seq<Word>)
    requires Orderly(r) && Told(r, heard) && id in r.tasks && Continuing(r.tasks[id])
    ensures Told(Continued(r, id, r.tasks[id], a), heard + [Word(r.tasks[id], a)])
  {
    hide Told;
    var next, w := Continued(r, id, r.tasks[id], a), Word(r.tasks[id], a);
    assert |r.events| == EventsAt(r.tasks[id]) && |r.marks| == MarksAt(r.tasks[id]) by {
      assert WorkerInStep(r, r.tasks[id]);
    }
    hide Orderly;
    if a.Replied? {
      RepliedTold(r, id, heard);
    } else if r.tasks[id].AtConfirm? && a.Declined? {
      NoMatchTold(r, next, heard);
    } else {
      VainAnswer(r, next, heard, w);
    }
  }

  lemma RepliedTold(r: Run, id: nat, heard: seq<Word>)
    requires Told(r, heard) && id in r.tasks && Continuing(r.tasks[id])
    requires |r.events| == EventsAt(r.tasks[id]) && |r.marks| == MarksAt(r.tasks[id])
    ensures Told(Continued(r, id, r.tasks[id], Replied), heard + [Word(r.tasks[id], Replied)])
  {
    hide Told;
    var next, w := Continued(r, id, r.tasks[id], Replied), Word(r.tasks[id], Replied);
    match r.tasks[id] {
      case AtIssue => FineAnswer(r, next, heard, w, CardIssued);
      case AtCheckout(_) => VainAnswer(r, next, heard, w);
      case AtSpend => FineAnswer(r, next, heard, w, SpendRecorded);
      case AtConfirm => MarkAnswer(r, next, heard, w);
      case AtSettlement => MarkAnswer(r, next, heard, w);
      case AtCapture =>
        HeardInVain(r, heard, w);
        CaptureTold(r, next, heard + [w]);
    }
  }

  lemma WaiterTold(r: Run, id: nat, a: Answer, heard: seq<Word>)
    requires Orderly(r) && Told(r, heard) && id in r.tasks && (r.tasks[id].AtResolution? || r.tasks[id].AtExpiry?)
    requires Presents(r, Answered(id, a)) ==> r.marks == []
    ensures Told(Next(r, Answered(id, a)), heard + [Word(r.tasks[id], a)])
  {
    hide Told;
    hide Executed;
    hide Continued;
    var next, w := Next(r, Answered(id, a)), Word(r.tasks[id], a);
    if r.tasks[id].AtResolution? && a.SignedReply? {
      assert Open(r);
      assert |r.events| == 4;
      hide Orderly;
      MarkAnswer(r, next, heard, w);
    } else {
      hide Orderly;
      VainAnswer(r, next, heard, w);
    }
  }

  lemma AnswerTold(r: Run, id: nat, a: Answer, heard: seq<Word>)
    requires Orderly(r) && Told(r, heard) && id in r.tasks && (Presents(r, Answered(id, a)) ==> r.marks == [])
    ensures Told(Next(r, Answered(id, a)), heard + [Word(r.tasks[id], a)])
  {
    hide Told;
    hide Orderly;
    hide Presents;
    if Executing(r.tasks[id]) {
      ExecutedTold(r, id, a, heard);
    } else if Continuing(r.tasks[id]) {
      ContinuedTold(r, id, a, heard);
    } else if r.tasks[id].Over? {
      OverStays(r, id, a);
      VainAnswer(r, r, heard, Word(r.tasks[id], a));
    } else {
      WaiterTold(r, id, a, heard);
    }
    hide Executed;
    hide Continued;
    hide Resolved;
    hide Expired;
  }

  lemma OtherStepTold(r: Run, step: Step, heard: seq<Word>)
    requires Orderly(r) && Told(r, heard) && (step.Answered? ==> step.id !in r.tasks)
    ensures Told(Next(r, step), heard)
  {
    hide Told;
    hide Executed;
    hide Continued;
    hide Resolved;
    hide Expired;
    if step.DomainAsserted? && step.id in r.tasks && r.tasks[step.id] == AtCheckout(false) {
      assert WorkerInStep(r, r.tasks[step.id]);
      hide Orderly;
      OneMoreFine(r, Next(r, step), heard, CheckoutAsserted);
    } else {
      hide Orderly;
      NothingNew(r, Next(r, step), heard);
    }
  }

  /** No second signature is heard of once a header was presented. */
  ghost predicate HearsOneSignature(shopify: bool, steps: seq<Step>) {
    forall n :: 0 <= n < |steps| ==> (Presents(After(shopify, steps[..n]), steps[n]) ==> After(shopify, steps[..n]).marks == [])
  }

  lemma HearsOneBefore(shopify: bool, steps: seq<Step>)
    requires steps != [] && HearsOneSignature(shopify, steps)
    ensures var n := |steps| - 1;
            && HearsOneSignature(shopify, steps[..n])
            && (Presents(After(shopify, steps[..n]), steps[n]) ==> After(shopify, steps[..n]).marks == [])
  {
    hide After;
    hide Presents;
    var front := steps[..|steps| - 1];
    forall k | 0 <= k < |front|
      ensures Presents(After(shopify, front[..k]), front[k]) ==> After(shopify, front[..k]).marks == []
    {
      assert front[..k] == steps[..k];
    }
  }

  lemma StartIsTold(shopify: bool)
    ensures Orderly(After(shopify, [])) && Told(After(shopify, []), Heard(shopify, [])) && After(shopify, []).shopify == shopify
  {
  }

  lemma {:induction false} RunIsTold(shopify: bool, steps: seq<Step>)
    requires HearsOneSignature(shopify, steps)
    ensures Orderly(After(shopify, steps)) && Told(After(shopify, steps), Heard(shopify, steps))
    ensures After(shopify, steps).shopify == shopify
    decreases |steps|
  {
    hide Next;
    hide Orderly;
    hide Told;
    hide Presents;
    if steps == [] {
      StartIsTold(shopify);
    } else {
      var front, last := steps[..|steps| - 1], steps[|steps| - 1];
      var r := After(shopify, front);
      HearsOneBefore(shopify, steps);
      hide HearsOneSignature;
      RunIsTold(shopify, front);
      NextIsOrderly(r, last);
      NextKeepsShopify(r, last);
      if last.Answered? && last.id in r.tasks {
        AnswerTold(r, last.id, last.answer, Heard(shopify, front));
      } else {
        OtherStepTold(r, last, Heard(shopify, front));
      }
    }
  }

  /** What each event of the feed says of the run. */
  ghost predicate StatusesTold(r: Run, heard: seq<Word>) {
    && (forall e :: e in r.events && !e.stage.PolicyDecision? && !e.stage.SettlementFinalized? ==> e.status == Fine)
    && (forall e :: e in r.events && e.stage.PolicyDecision? ==> exists w :: w in heard && Answers(w, e.status))
    && (forall w, status :: w in heard && Answers(w, status) ==>
          exists e :: e in r.events && e.stage.PolicyDecision? && e.status == status)
    && (forall e :: e in r.events && e.stage.SettlementFinalized? ==>
          && (e.status == Fine || e.status == Refusal)
          && (e.status == Fine <==> TransferMatched in r.marks && SettlementStored in r.marks && CaptureStored in r.marks)
          && (e.status == Refusal <==> NO_MATCH in heard))
    && (NO_MATCH in heard ==> exists e :: e in r.events && e.stage.SettlementFinalized? && e.status == Refusal)
    && (CaptureStored in r.marks ==> exists e :: e in r.events && e.stage.SettlementFinalized? && e.status == Fine)
  }

  lemma StageIsPlace(r: Run, k: nat)
    requires EventsInOrder(r.shopify, r.events) && k < |r.events|
    ensures r.events[k].stage.PolicyDecision? <==> k == DECISION
    ensures r.events[k].stage.SettlementFinalized? <==> k == LAST
  {
  }

  lemma CaptureIsFifth(r: Run)
    requires MarksInOrder(r.marks)
    ensures CaptureStored in r.marks <==> |r.marks| >= 5
    ensures |r.marks| >= 5 ==> TransferMatched in r.marks && SettlementStored in r.marks
  {
    if |r.marks| >= 5 {
      assert r.marks[2] == TransferMatched && r.marks[3] == SettlementStored && r.marks[4] == CaptureStored;
    }
  }

  lemma ToldByStage(r: Run, heard: seq<Word>)
    requires Orderly(r) && Told(r, heard)
    ensures StatusesTold(r, heard)
  {
    hide Answers;
    CaptureIsFifth(r);
    hide MarksInOrder;
    forall k | 0 <= k < |r.events|
      ensures r.events[k].stage.PolicyDecision? <==> k == DECISION
      ensures r.events[k].stage.SettlementFinalized? <==> k == LAST
    {
      StageIsPlace(r, k);
    }
    hide EventsInOrder;
    hide Orderly;
  }

  /**
   * In every run that hears of one signature at most, policy's decision is announced exactly as policy
   * answered, the settlement as final exactly when the transfer matched and settlement and capture
   * were stored, as refused exactly when the transfer did not match, and every other stage as done.
   */
  lemma StatusesTellTheRun(shopify: bool, steps: seq<Step>)
    requires HearsOneSignature(shopify, steps)
    ensures StatusesTold(After(shopify, steps), Heard(shopify, steps))
  {
    hide After;
    hide Heard;
    hide Told;
    hide Orderly;
    hide StatusesTold;
    RunIsTold(shopify, steps);
    ToldByStage(After(shopify, steps), Heard(shopify, steps));
  }
}
