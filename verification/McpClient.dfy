/**
 * services/agent-orchestrator/src/card-gateway/mcp-client.ts: the table of pending calls, each
 * with its timer, over the event stream. The endpoint check and JSON.parse are parameters.
 */
module McpClient {
  import opened Wrappers
  import opened SseFraming

  datatype Verdict = Resolved | Failed(reason: string)

  datatype Settlement = Settlement(id: nat, verdict: Verdict)

  /** `pending` lists the ids in the order of their calls; `settled` is every promise settled so far. */
  datatype Client = Client(nextId: nat, pending: seq<nat>, armed: set<nat>, settled: seq<Settlement>,
                           messagesUrl: Option<string>, closed: bool, reading: bool, buffer: string)

  const FRESH: Client := Client(1, [], {}, [], None, false, true, "")

  /** What JSON.parse makes of the data of an event; reading the id of a `null` throws. */
  datatype Message = Null | NoCall | Answer(id: nat, error: bool, hasResult: bool)

  datatype Parsers = Parsers(endpoint: string -> Option<string>, message: string -> Message)

  datatype Op =
    | Issue
    | Chunk(text: string)
    | TimerFires(id: nat)
    | PostFails(id: nat)
    | StreamEnds
    | Close

  // ---- The operations --------------------------------------------------------------------------

  function Removing(ids: seq<nat>, id: nat): seq<nat> {
    if ids == [] then [] else if ids[0] == id then Removing(ids[1..], id) else [ids[0]] + Removing(ids[1..], id)
  }

  function Settle(c: Client, id: nat, verdict: Verdict): Client {
    c.(pending := Removing(c.pending, id), armed := c.armed - {id}, settled := c.settled + [Settlement(id, verdict)])
  }

  function IssueCall(c: Client): Client {
    c.(nextId := c.nextId + 1, pending := c.pending + [c.nextId], armed := c.armed + {c.nextId})
  }

  function Rejections(ids: seq<nat>, reason: string): (all: seq<Settlement>)
    ensures |all| == |ids| && forall k :: 0 <= k < |ids| ==> all[k] == Settlement(ids[k], Failed(reason))
  {
    seq(|ids|, k requires 0 <= k < |ids| => Settlement(ids[k], Failed(reason)))
  }

  function Members(ids: seq<nat>): set<nat> {
    set id | id in ids
  }

  function RejectAll(c: Client, reason: string): Client {
    c.(pending := [], armed := c.armed - Members(c.pending), settled := c.settled + Rejections(c.pending, reason))
  }

  function Deliver(c: Client, m: Message): Client {
    if !m.Answer? || m.id !in c.pending then c
    else if m.error then Settle(c, m.id, Failed("call failed"))
    else if !m.hasResult then Settle(c, m.id, Failed("response omitted result"))
    else Settle(c, m.id, Resolved)
  }

  /** Dispatching the event throws: it names a bad endpoint, or its message is `null`. */
  predicate Throws(raw: string, p: Parsers) {
    var e := ReadEvent(raw);
    || (e.name == "endpoint" && p.endpoint(e.data).None?)
    || (e.name == "message" && e.data != "" && p.message(e.data).Null?)
  }

  function Dispatch(c: Client, raw: string, p: Parsers): Client
    requires !Throws(raw, p)
  {
    var e := ReadEvent(raw);
    if e.name == "endpoint" then c.(messagesUrl := p.endpoint(e.data))
    else if e.name != "message" || e.data == "" then c
    else Deliver(c, p.message(e.data))
  }

  /** The read loop stops, because the stream ended or failed, or an event threw. */
  function Stop(c: Client): Client {
    if c.closed then c.(reading := false) else RejectAll(c, "stream failed").(reading := false)
  }

  /** The inner loop of one read: dispatch every complete event in the buffer. */
  function Drain(c: Client, p: Parsers): Client
    decreases |c.buffer|
  {
    var i := Separator(c.buffer, 0);
    if i == |c.buffer| then c else
      var raw := c.buffer[..i];
      var rest := c.(buffer := c.buffer[i + 2..]);
      if Throws(raw, p) then Stop(rest) else
        assert Dispatch(rest, raw, p).buffer == rest.buffer;
        Drain(Dispatch(rest, raw, p), p)
  }

  lemma DrainStep(c: Client, p: Parsers)
    requires Separator(c.buffer, 0) != |c.buffer|
    ensures var i := Separator(c.buffer, 0);
            var raw, rest := c.buffer[..i], c.(buffer := c.buffer[i + 2..]);
            if Throws(raw, p) then Drain(c, p) == Stop(rest)
            else Dispatch(rest, raw, p).buffer == rest.buffer && Drain(c, p) == Drain(Dispatch(rest, raw, p), p)
  {
  }

  lemma DrainDone(c: Client, p: Parsers)
    requires Separator(c.buffer, 0) == |c.buffer|
    ensures Drain(c, p) == c
  {
  }

  function Next(c: Client, op: Op, p: Parsers): Client {
    match op
    case Issue => IssueCall(c)
    case Chunk(text) => if c.reading then Drain(c.(buffer := c.buffer + Normalise(text)), p) else c
    case TimerFires(id) => if id in c.armed then Settle(c, id, Failed("response timed out")) else c
    case PostFails(id) => if id in c.pending then Settle(c, id, Failed("post failed")) else c
    case StreamEnds => if c.reading then Stop(c) else c
    case Close => if c.closed then c else RejectAll(c.(closed := true), "client closed")
  }

  function Run(ops: seq<Op>, p: Parsers): Client {
    if ops == [] then FRESH else Next(Run(ops[..|ops| - 1], p), ops[|ops| - 1], p)
  }

  // ---- The client, in place ------------------------------------------------------------------------

  class McpSseClient {
    const parsers: Parsers
    var nextId: nat
    var pending: seq<nat>
    var armed: set<nat>
    var settled: seq<Settlement>
    var messagesUrl: Option<string>
    var closed: bool
    var reading: bool
    var buffer: string

    constructor (parsers: Parsers)
      ensures this.parsers == parsers && State() == FRESH
    {
      this.parsers := parsers;
      nextId, pending, armed, settled := 1, [], {}, [];
      messagesUrl, closed, reading, buffer := None, false, true, "";
    }

    function State(): Client
      reads this
    {
      Client(nextId, pending, armed, settled, messagesUrl, closed, reading, buffer)
    }

    method Call() returns (id: nat)
      modifies this
      ensures State() == Next(old(State()), Issue, parsers) && id == old(nextId)
    {
      id := nextId;
      nextId := nextId + 1;
      armed := armed + {id};
      pending := pending + [id];
    }

    method OnTimer(id: nat)
      modifies this
      ensures State() == Next(old(State()), TimerFires(id), parsers)
    {
      if id in armed {
        SettleOne(id, Failed("response timed out"));
      }
    }

    method OnPostFailure(id: nat)
      modifies this
      ensures State() == Next(old(State()), PostFails(id), parsers)
    {
      if id in pending {
        SettleOne(id, Failed("post failed"));
      }
    }

    method SettleOne(id: nat, verdict: Verdict)
      modifies this
      ensures State() == Settle(old(State()), id, verdict)
    {
      pending := Removing(pending, id);
      armed := armed - {id};
      settled := settled + [Settlement(id, verdict)];
    }

    /** Clears every timer and rejects every pending call, in the order of the calls. */
    method RejectEvery(reason: string)
      modifies this
      ensures State() == RejectAll(old(State()), reason)
    {
      for k := 0 to |pending|
        invariant pending == old(pending)
        invariant State() == old(State()).(armed := old(armed) - Members(pending[..k]),
                                           settled := old(settled) + Rejections(pending, reason)[..k])
      {
        armed := armed - {pending[k]};
        settled := settled + [Settlement(pending[k], Failed(reason))];
        assert pending[..k + 1] == pending[..k] + [pending[k]];
        assert armed == old(armed) - Members(pending[..k + 1]);
      }
      assert pending[..|pending|] == pending;
      pending := [];
    }

    method DispatchEvent(raw: string) returns (thrown: bool)
      modifies this
      ensures thrown == Throws(raw, parsers)
      ensures State() == if thrown then old(State()) else Dispatch(old(State()), raw, parsers)
    {
      var e := ReadEvent(raw);
      if e.name == "endpoint" {
        var url := parsers.endpoint(e.data);
        if url.None? {
          return true;
        }
        messagesUrl := url;
        return false;
      }
      if e.name != "message" || e.data == "" {
        return false;
      }
      var message := parsers.message(e.data);
      if message.Null? {
        return true;
      }
      if message.NoCall? || message.id !in pending {
        return false;
      }
      if message.error {
        SettleOne(message.id, Failed("call failed"));
      } else if !message.hasResult {
        SettleOne(message.id, Failed("response omitted result"));
      } else {
        SettleOne(message.id, Resolved);
      }
      return false;
    }

    /** One turn of the read loop, with the chunk it was handed. */
    method OnChunk(text: string)
      modifies this
      ensures State() == Next(old(State()), Chunk(text), parsers)
    {
      if !reading {
        return;
      }
      buffer := buffer + Normalise(text);
      ghost var whole := State();
      hide Dispatch;
      hide Throws;
      hide Stop;
      hide ReadEvent;
      hide Drain;
      hide Normalise;
      var separator := Separator(buffer, 0);
      while separator != |buffer|
        invariant separator == Separator(buffer, 0)
        invariant Drain(State(), parsers) == Drain(whole, parsers)
        decreases |buffer|
      {
        ghost var before := State();
        var raw := buffer[..separator];
        buffer := buffer[separator + 2..];
        DrainStep(before, parsers);
        assert State() == before.(buffer := before.buffer[separator + 2..]);
        var thrown := DispatchEvent(raw);
        if thrown {
          OnStreamFailure();
          return;
        }
        separator := Separator(buffer, 0);
      }
      DrainDone(State(), parsers);
    }

    method OnStreamFailure()
      modifies this
      ensures State() == Stop(old(State()))
    {
      if !closed {
        RejectEvery("stream failed");
      }
      reading := false;
    }

    method OnStreamEnd()
      modifies this
      ensures State() == Next(old(State()), StreamEnds, parsers)
    {
      if reading {
        OnStreamFailure();
      }
    }

    method CloseClient()
      modifies this
      ensures State() == Next(old(State()), Close, parsers)
    {
      if closed {
        return;
      }
      closed := true;
      RejectEvery("client closed");
    }
  }

  // ---- Every call settles once ---------------------------------------------------------------------

  predicate WasSettled(settled: seq<Settlement>, id: nat) {
    exists k :: 0 <= k < |settled| && settled[k].id == id
  }

  predicate NoneTwice(ids: seq<nat>) {
    forall j, k :: 0 <= j < k < |ids| ==> ids[j] != ids[k]
  }

  predicate SettledOnce(settled: seq<Settlement>) {
    forall j, k :: 0 <= j < k < |settled| ==> settled[j].id != settled[k].id
  }

  /** The pending ids are exactly those issued and not settled, each with its timer armed. */
  ghost predicate Table(c: Client) {
    && c.nextId >= 1 && NoneTwice(c.pending) && SettledOnce(c.settled)
    && c.armed == Members(c.pending)
    && (forall id: nat :: 1 <= id < c.nextId <==> id in c.pending || WasSettled(c.settled, id))
    && (forall id :: id in c.pending ==> !WasSettled(c.settled, id))
  }

  lemma {:induction false} RemovingRemoves(ids: seq<nat>, id: nat)
    requires NoneTwice(ids)
    ensures NoneTwice(Removing(ids, id))
    ensures forall x :: x in Removing(ids, id) <==> x in ids && x != id
  {
    if ids != [] {
      RemovingRemoves(ids[1..], id);
      assert ids == [ids[0]] + ids[1..];
      assert ids[0] !in ids[1..];
    }
  }

  lemma SettledGrows(settled: seq<Settlement>, s: Settlement, id: nat)
    ensures WasSettled(settled + [s], id) <==> WasSettled(settled, id) || id == s.id
  {
    var after := settled + [s];
    if WasSettled(settled, id) {
      var k :| 0 <= k < |settled| && settled[k].id == id;
      assert after[k].id == id;
    }
    if id == s.id {
      assert after[|settled|].id == id;
    }
  }

  lemma SettleKeeps(c: Client, id: nat, verdict: Verdict)
    requires Table(c) && id in c.pending
    ensures Table(Settle(c, id, verdict))
  {
    var after := Settle(c, id, verdict);
    RemovingRemoves(c.pending, id);
    forall x
      ensures WasSettled(after.settled, x) <==> WasSettled(c.settled, x) || x == id
    {
      SettledGrows(c.settled, Settlement(id, verdict), x);
    }
    forall k | 0 <= k < |c.settled|
      ensures c.settled[k].id != id
    {
      assert WasSettled(c.settled, c.settled[k].id);
    }
    hide WasSettled;
  }

  lemma RejectionsSettle(c: Client, reason: string, id: nat)
    ensures WasSettled(c.settled + Rejections(c.pending, reason), id) <==> WasSettled(c.settled, id) || id in c.pending
  {
    var after := c.settled + Rejections(c.pending, reason);
    if WasSettled(c.settled, id) {
      var k :| 0 <= k < |c.settled| && c.settled[k].id == id;
      assert after[k].id == id;
    }
    if id in c.pending {
      var k :| 0 <= k < |c.pending| && c.pending[k] == id;
      assert after[|c.settled| + k].id == id;
    }
  }

  lemma RejectAllKeeps(c: Client, reason: string)
    requires Table(c)
    ensures Table(RejectAll(c, reason))
  {
    var after := RejectAll(c, reason);
    forall id
      ensures WasSettled(after.settled, id) <==> WasSettled(c.settled, id) || id in c.pending
    {
      RejectionsSettle(c, reason, id);
    }
    forall k | 0 <= k < |c.settled|
      ensures c.settled[k].id !in c.pending
    {
      assert WasSettled(c.settled, c.settled[k].id);
    }
    hide WasSettled;
    assert SettledOnce(after.settled);
  }

  lemma IssueKeeps(c: Client)
    requires Table(c)
    ensures Table(IssueCall(c))
  {
    assert c.nextId !in c.pending;
    hide WasSettled;
  }

  lemma {:induction false} DrainKeeps(c: Client, p: Parsers)
    requires Table(c)
    ensures Table(Drain(c, p))
    decreases |c.buffer|
  {
    var i := Separator(c.buffer, 0);
    if i != |c.buffer| {
      var raw := c.buffer[..i];
      var rest := c.(buffer := c.buffer[i + 2..]);
      if Throws(raw, p) {
        RejectAllKeeps(rest, "stream failed");
      } else {
        DispatchKeeps(rest, raw, p);
        hide Dispatch;
        hide Table;
        DrainKeeps(Dispatch(rest, raw, p), p);
      }
    }
  }

  lemma DispatchKeeps(c: Client, raw: string, p: Parsers)
    requires Table(c) && !Throws(raw, p)
    ensures Table(Dispatch(c, raw, p)) && Dispatch(c, raw, p).buffer == c.buffer
  {
    var m := p.message(ReadEvent(raw).data);
    if m.Answer? && m.id in c.pending {
      SettleKeeps(c, m.id, Failed("call failed"));
      SettleKeeps(c, m.id, Failed("response omitted result"));
      SettleKeeps(c, m.id, Resolved);
    }
    hide Table;
    hide ReadEvent;
    TableIgnores(c, p.endpoint(ReadEvent(raw).data), c.closed, c.reading);
  }

  lemma TableIgnores(c: Client, url: Option<string>, closed: bool, reading: bool)
    requires Table(c)
    ensures Table(c.(messagesUrl := url)) && Table(c.(closed := closed)) && Table(c.(reading := reading))
  {
    hide WasSettled;
  }

  lemma NextKeeps(c: Client, op: Op, p: Parsers)
    requires Table(c)
    ensures Table(Next(c, op, p))
  {
    match op {
      case Issue => IssueKeeps(c);
      case Chunk(text) =>
        assert Table(c.(buffer := c.buffer + Normalise(text))) by { hide WasSettled; }
        hide Table;
        DrainKeeps(c.(buffer := c.buffer + Normalise(text)), p);
      case TimerFires(id) =>
        if id in c.armed {
          SettleKeeps(c, id, Failed("response timed out"));
        }
      case PostFails(id) =>
        if id in c.pending {
          SettleKeeps(c, id, Failed("post failed"));
        }
      case StreamEnds =>
        TableIgnores(c, c.messagesUrl, c.closed, false);
        RejectAllKeeps(c, "stream failed");
        TableIgnores(RejectAll(c, "stream failed"), c.messagesUrl, c.closed, false);
      case Close =>
        TableIgnores(c, c.messagesUrl, true, c.reading);
        RejectAllKeeps(c.(closed := true), "client closed");
    }
    hide Table;
    hide Drain;
  }

  /** After any run of calls, chunks, timers and failures, every issued call is pending or settled once. */
  lemma {:induction false} EveryCallSettlesOnce(ops: seq<Op>, p: Parsers)
    ensures Table(Run(ops, p))
  {
    if ops != [] {
      EveryCallSettlesOnce(ops[..|ops| - 1], p);
      hide Table;
      NextKeeps(Run(ops[..|ops| - 1], p), ops[|ops| - 1], p);
    }
  }

  /** An answer settles its own call if that is pending, and no other. */
  lemma AnswerSettlesItsOwn(c: Client, m: Message)
    requires Table(c) && m.Answer?
    ensures var after := Deliver(c, m);
            && (m.id in c.pending ==>
                  after.settled == c.settled + [Settlement(m.id, after.settled[|c.settled|].verdict)]
                  && (after.settled[|c.settled|].verdict.Resolved? <==> !m.error && m.hasResult))
            && (m.id !in c.pending ==> after == c)
            && forall id :: id != m.id ==>
                 (id in after.pending <==> id in c.pending) && (id in after.armed <==> id in c.armed)
  {
    RemovingRemoves(c.pending, m.id);
    hide Table;
    hide WasSettled;
  }

  predicate SomeThrows(events: seq<string>, p: Parsers) {
    exists k :: 0 <= k < |events| && Throws(events[k], p)
  }

  lemma SomeThrowsOneMore(raw: string, events: seq<string>, p: Parsers)
    ensures SomeThrows([raw] + events, p) <==> Throws(raw, p) || SomeThrows(events, p)
  {
    hide Throws;
    var all := [raw] + events;
    assert all[0] == raw;
    forall k | 0 <= k < |events|
      ensures Throws(events[k], p) ==> SomeThrows(all, p)
    {
      assert all[k + 1] == events[k];
    }
    forall k | 0 <= k < |all|
      ensures Throws(all[k], p) ==> Throws(raw, p) || SomeThrows(events, p)
    {
      assert k > 0 ==> all[k] == events[k - 1];
    }
  }

  lemma {:induction false} DrainStops(c: Client, p: Parsers)
    requires c.reading
    ensures var after := Drain(c, p);
            && (!after.reading <==> SomeThrows(Split(c.buffer).events, p))
            && (!after.reading && !c.closed ==> after.pending == [])
            && after.nextId == c.nextId
    decreases |c.buffer|
  {
    hide Drain;
    hide Dispatch;
    hide Throws;
    hide SomeThrows;
    hide Separator;
    var i := Separator(c.buffer, 0);
    if i == |c.buffer| {
      DrainDone(c, p);
      NoneThrows(p);
    } else {
      DrainStep(c, p);
      var raw, rest := c.buffer[..i], c.(buffer := c.buffer[i + 2..]);
      SomeThrowsOneMore(raw, Split(rest.buffer).events, p);
      if !Throws(raw, p) {
        DispatchKeepsReading(rest, raw, p);
        DrainStops(Dispatch(rest, raw, p), p);
      }
    }
  }

  lemma NoneThrows(p: Parsers)
    ensures !SomeThrows([], p)
  {
  }

  lemma DispatchKeepsReading(c: Client, raw: string, p: Parsers)
    requires !Throws(raw, p)
    ensures var after := Dispatch(c, raw, p);
            && after.reading == c.reading && after.closed == c.closed && after.nextId == c.nextId && after.buffer == c.buffer
  {
    hide ReadEvent;
    hide Removing;
  }

  /** A read ends the stream exactly when dispatching one of the events it completes throws. */
  lemma ChunkStopsExactlyWhen(c: Client, text: string, p: Parsers)
    requires c.reading
    ensures !Next(c, Chunk(text), p).reading <==> SomeThrows(Feed(c.buffer, text).events, p)
  {
    hide Drain;
    hide Split;
    hide SomeThrows;
    hide Normalise;
    DrainStops(c.(buffer := c.buffer + Normalise(text)), p);
  }

  /** The address that the last endpoint event among these names, or the one known before. */
  function LastEndpoint(events: seq<string>, known: Option<string>, p: Parsers): Option<string>
    decreases |events|
  {
    if events == [] then known else
      var e := ReadEvent(events[0]);
      LastEndpoint(events[1..], if e.name == "endpoint" then p.endpoint(e.data) else known, p)
  }

  lemma DispatchNames(c: Client, raw: string, p: Parsers)
    requires !Throws(raw, p)
    ensures var e := ReadEvent(raw);
            Dispatch(c, raw, p).messagesUrl == if e.name == "endpoint" then p.endpoint(e.data) else c.messagesUrl
  {
    hide ReadEvent;
    hide Removing;
  }

  lemma {:induction false} DrainNames(c: Client, p: Parsers)
    requires c.reading && Drain(c, p).reading
    ensures Drain(c, p).messagesUrl == LastEndpoint(Split(c.buffer).events, c.messagesUrl, p)
    decreases |c.buffer|
  {
    hide Drain;
    hide Dispatch;
    hide Throws;
    hide ReadEvent;
    hide Separator;
    var i := Separator(c.buffer, 0);
    if i == |c.buffer| {
      DrainDone(c, p);
    } else {
      DrainStep(c, p);
      var raw, rest := c.buffer[..i], c.(buffer := c.buffer[i + 2..]);
      assert Split(c.buffer).events == [raw] + Split(rest.buffer).events;
      assert ([raw] + Split(rest.buffer).events)[1..] == Split(rest.buffer).events;
      if !Throws(raw, p) {
        DispatchKeepsReading(rest, raw, p);
        DispatchNames(rest, raw, p);
        DrainNames(Dispatch(rest, raw, p), p);
      }
    }
  }

  /** Calls are posted to the address of the last endpoint event read; nothing else names one. */
  lemma PostsGoToTheLastEndpoint(c: Client, op: Op, p: Parsers)
    ensures var after := Next(c, op, p);
            if op.Chunk? && c.reading then
              after.reading ==> after.messagesUrl == LastEndpoint(Feed(c.buffer, op.text).events, c.messagesUrl, p)
            else after.messagesUrl == c.messagesUrl
  {
    hide Drain;
    hide Split;
    hide LastEndpoint;
    hide Normalise;
    hide Removing;
    if op.Chunk? && c.reading && Next(c, op, p).reading {
      DrainNames(c.(buffer := c.buffer + Normalise(op.text)), p);
    }
  }

  /** The first answer that these events carry for the call. */
  function FirstAnswer(events: seq<string>, id: nat, p: Parsers): (first: Option<Message>)
    ensures first.Some? ==> first.value.Answer? && first.value.id == id
    decreases |events|
  {
    if events == [] then None else
      var e := ReadEvent(events[0]);
      var m := p.message(e.data);
      if e.name == "message" && e.data != "" && m.Answer? && m.id == id then Some(m)
      else FirstAnswer(events[1..], id, p)
  }

  /** The call is settled, and resolved exactly when `resolved` says so. */
  predicate SettledAs(settled: seq<Settlement>, id: nat, resolved: bool) {
    exists k :: 0 <= k < |settled| && settled[k].id == id && (settled[k].verdict.Resolved? <==> resolved)
  }

  lemma DispatchAnswers(c: Client, raw: string, p: Parsers, id: nat)
    requires !Throws(raw, p) && NoneTwice(c.pending) && id in c.pending
    ensures var after := Dispatch(c, raw, p);
            var m := FirstAnswer([raw], id, p);
            && NoneTwice(after.pending) && c.settled <= after.settled
            && if m.None? then id in after.pending
               else SettledAs(after.settled, id, !m.value.error && m.value.hasResult)
  {
    hide ReadEvent;
    hide Removing;
    var after, m := Dispatch(c, raw, p), p.message(ReadEvent(raw).data);
    if m.Answer? {
      RemovingRemoves(c.pending, m.id);
    }
    assert FirstAnswer([raw][1..], id, p) == None;
    if FirstAnswer([raw], id, p).Some? {
      assert after.settled[|c.settled|].id == id;
    }
  }

  lemma {:induction false} DrainOnlyAppends(c: Client, p: Parsers)
    ensures c.settled <= Drain(c, p).settled
    decreases |c.buffer|
  {
    hide Drain;
    hide Dispatch;
    hide Separator;
    hide Throws;
    var i := Separator(c.buffer, 0);
    if i == |c.buffer| {
      DrainDone(c, p);
    } else {
      DrainStep(c, p);
      var raw, rest := c.buffer[..i], c.(buffer := c.buffer[i + 2..]);
      if !Throws(raw, p) {
        DispatchOnlyAppends(rest, raw, p);
        DrainOnlyAppends(Dispatch(rest, raw, p), p);
      }
    }
  }

  lemma DispatchOnlyAppends(c: Client, raw: string, p: Parsers)
    requires !Throws(raw, p)
    ensures c.settled <= Dispatch(c, raw, p).settled
  {
    hide ReadEvent;
    hide Removing;
  }

  lemma SettledAsStays(before: seq<Settlement>, after: seq<Settlement>, id: nat, resolved: bool)
    requires before <= after && SettledAs(before, id, resolved)
    ensures SettledAs(after, id, resolved)
  {
    var k :| 0 <= k < |before| && before[k].id == id && (before[k].verdict.Resolved? <==> resolved);
    assert after[k] == before[k];
  }

  lemma {:induction false} DrainAnswers(c: Client, p: Parsers, id: nat)
    requires c.reading && Drain(c, p).reading && NoneTwice(c.pending) && id in c.pending
    ensures var after := Drain(c, p);
            var m := FirstAnswer(Split(c.buffer).events, id, p);
            if m.None? then id in after.pending
            else SettledAs(after.settled, id, !m.value.error && m.value.hasResult)
    decreases |c.buffer|
  {
    hide Drain;
    hide Dispatch;
    hide Throws;
    hide ReadEvent;
    hide Separator;
    hide NoneTwice;
    hide SettledAs;
    var i := Separator(c.buffer, 0);
    if i == |c.buffer| {
      DrainDone(c, p);
    } else {
      DrainStep(c, p);
      var raw, rest := c.buffer[..i], c.(buffer := c.buffer[i + 2..]);
      var later := Split(rest.buffer).events;
      assert Split(c.buffer).events == [raw] + later;
      assert ([raw] + later)[1..] == later && [raw][1..] == [];
      if !Throws(raw, p) {
        var one := Dispatch(rest, raw, p);
        var m := FirstAnswer([raw], id, p);
        DispatchKeepsReading(rest, raw, p);
        DispatchAnswers(rest, raw, p, id);
        if m.None? {
          DrainAnswers(one, p, id);
        } else {
          DrainOnlyAppends(one, p);
          SettledAsStays(one.settled, Drain(one, p).settled, id, !m.value.error && m.value.hasResult);
        }
      }
    }
  }

  /**
   * What a read does to a pending call is told by the first answer for it among the completed
   * events: it is resolved by a result, rejected by an error or an empty answer, and kept without one.
   */
  lemma FirstAnswerDecides(c: Client, text: string, p: Parsers, id: nat)
    requires Table(c) && id in c.pending && c.reading && Next(c, Chunk(text), p).reading
    ensures var after := Next(c, Chunk(text), p);
            var m := FirstAnswer(Feed(c.buffer, text).events, id, p);
            if m.None? then id in after.pending
            else SettledAs(after.settled, id, !m.value.error && m.value.hasResult)
  {
    hide Drain;
    hide Split;
    hide Normalise;
    hide FirstAnswer;
    DrainAnswers(c.(buffer := c.buffer + Normalise(text)), p, id);
  }

  /** Without an answer no call is ever resolved: timers, failures and the end of the stream only reject. */
  lemma OnlyAnswersResolve(c: Client, op: Op, p: Parsers, k: nat)
    requires !op.Chunk? && |c.settled| <= k < |Next(c, op, p).settled|
    ensures Next(c, op, p).settled[k].verdict.Failed?
  {
    hide Removing;
  }

  /** The op closes an open client, or ends its stream: by its end, its failure, or a throw inside a chunk. */
  predicate Ends(c: Client, op: Op, p: Parsers) {
    !c.closed && (op.Close? || (c.reading && !Next(c, op, p).reading))
  }

  lemma EndsClearPending(c: Client, op: Op, p: Parsers)
    requires Ends(c, op, p)
    ensures Next(c, op, p).pending == [] && Next(c, op, p).nextId == c.nextId
  {
    hide Drain;
    hide Normalise;
    if op.Chunk? {
      DrainStops(c.(buffer := c.buffer + Normalise(op.text)), p);
    }
  }

  /** Whatever ends an open client leaves nothing pending and no timer armed, and settles all that was pending. */
  lemma EndSettlesAll(c: Client, op: Op, p: Parsers)
    requires Table(c) && Ends(c, op, p)
    ensures var after := Next(c, op, p);
            && after.pending == [] && after.armed == {}
            && forall id :: id in c.pending ==> WasSettled(after.settled, id)
  {
    hide Next;
    hide Ends;
    NextKeeps(c, op, p);
    EndsClearPending(c, op, p);
    var after := Next(c, op, p);
    forall id | id in c.pending
      ensures WasSettled(after.settled, id)
    {
      assert 1 <= id < after.nextId;
    }
    hide WasSettled;
  }

  lemma {:induction false} DrainKeepsClosed(c: Client, p: Parsers)
    ensures Drain(c, p).closed == c.closed
    decreases |c.buffer|
  {
    hide Drain;
    hide Dispatch;
    hide Separator;
    hide Throws;
    var i := Separator(c.buffer, 0);
    if i == |c.buffer| {
      DrainDone(c, p);
    } else {
      DrainStep(c, p);
      var raw, rest := c.buffer[..i], c.(buffer := c.buffer[i + 2..]);
      if !Throws(raw, p) {
        DispatchKeepsReading(rest, raw, p);
        DrainKeepsClosed(Dispatch(rest, raw, p), p);
      }
    }
  }

  /** Only a close closes the client, for good; on a closed one, closing and the end of the stream settle nothing. */
  lemma ClosesExactlyWhen(c: Client, op: Op, p: Parsers)
    ensures Next(c, op, p).closed <==> c.closed || op.Close?
    ensures c.closed && (op.Close? || op.StreamEnds?) ==>
              Next(c, op, p).settled == c.settled && Next(c, op, p).pending == c.pending
  {
    hide Drain;
    hide Normalise;
    if op.Chunk? {
      DrainKeepsClosed(c.(buffer := c.buffer + Normalise(op.text)), p);
    }
  }

  // ---- Chunks do not matter to the client either -----------------------------------------------------

  /** Two clients that differ at most in a buffer nobody reads any more. */
  predicate Alike(c: Client, d: Client) {
    c.(buffer := "") == d.(buffer := "") && (c.reading ==> c == d)
  }

  lemma {:induction false} DrainContinues(c: Client, more: string, p: Parsers)
    requires c.reading
    ensures var first := Drain(c, p);
            Alike(if first.reading then Drain(first.(buffer := first.buffer + more), p) else first,
                  Drain(c.(buffer := c.buffer + more), p))
    decreases |c.buffer|
  {
    var i := Separator(c.buffer, 0);
    var whole := c.(buffer := c.buffer + more);
    if i < |c.buffer| {
      SeparatorStays(c.buffer, more);
      CutOfSum(c.buffer, more, i, i + 2);
      DrainStep(c, p);
      DrainStep(whole, p);
      var raw, tail := c.buffer[..i], c.buffer[i + 2..];
      var rest := c.(buffer := tail);
      hide Drain;
      hide Separator;
      hide ReadEvent;
      if Throws(raw, p) {
        assert Drain(c, p) == Stop(rest) && Drain(whole, p) == Stop(rest.(buffer := tail + more));
      } else {
        DispatchIgnoresBuffer(rest, tail + more, raw, p);
        hide Dispatch;
        DrainContinues(Dispatch(rest, raw, p), more, p);
      }
    } else {
      DrainDone(c, p);
    }
  }

  lemma DispatchIgnoresBuffer(c: Client, buffer: string, raw: string, p: Parsers)
    requires !Throws(raw, p)
    ensures Dispatch(c.(buffer := buffer), raw, p) == Dispatch(c, raw, p).(buffer := buffer)
    ensures Dispatch(c, raw, p).buffer == c.buffer && Dispatch(c, raw, p).reading == c.reading
  {
    hide ReadEvent;
    hide Removing;
  }

  /** Two chunks do what one would, unless they tear a CR-LF apart. */
  lemma ChunksActAsOne(c: Client, a: string, b: string, p: Parsers)
    requires !Torn(a, b)
    ensures Alike(Next(Next(c, Chunk(a), p), Chunk(b), p), Next(c, Chunk(a + b), p))
  {
    if c.reading {
      NormaliseAppends(a, b);
      assert c.buffer + Normalise(a + b) == c.buffer + Normalise(a) + Normalise(b);
      DrainContinues(c.(buffer := c.buffer + Normalise(a)), Normalise(b), p);
      hide Drain;
    }
  }
}
