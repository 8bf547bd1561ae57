/** The request/response protocol of the MCP client (internal/mcp/client.go): requests waiting on
    one-slot channels, dispatchers that take a channel out of the pending map under the lock and
    send outside it, and failPending, Close, cancellation and failed writes racing with them.
    One step per lock region or channel operation, in any interleaving. */
module McpProtocol {
  import opened Text

  // ---------- ids ----------

  /** The id of a message, as decoded from JSON. */
  datatype RpcId = StringId(s: string) | NumberId(f: real) | LiteralId(s: string) | OtherId

  /** int64(f) for a number in range: toward zero. */
  function Truncate(f: real): int {
    if f >= 0.0 then f.Floor else -((-f).Floor)
  }

  function NormalizeID(id: RpcId): Option<string> {
    match id
    case StringId(s) => Some(s)
    case NumberId(f) => Some(Itoa(Truncate(f)))
    case LiteralId(s) => Some(s)
    case OtherId => None
  }

  // ---------- state ----------

  datatype Message = Message(id: RpcId, body: string)

  /** What a response channel carries. */
  datatype Response = FromServer(msg: Message) | Failed(reason: string) | ClientClosed

  /** A one-slot channel; `sent` counts the values ever put into it. */
  datatype Channel = Channel(buf: Option<Response>, closed: bool, sent: nat)

  const OPEN_CHANNEL := Channel(None, false, 0)

  /** What a request returns to its caller. */
  datatype Outcome =
    | Answer(r: Response)
    | ZeroValue            // a receive from a closed, empty channel
    | Direct               // answered or failed by the write itself
    | Cancelled
    | SawClose

  /** Where a request is in requestAsync, requestSSE and awaitPending. */
  datatype Phase =
    | Numbered
    | Writing
    | Unregistering(outcome: Outcome)
    | Awaiting
    | Returned(outcome: Outcome)

  /** A dispatcher that has found a pending request. */
  datatype Dispatch = Removed(req: nat, msg: Message) | Sent(req: nat)

  datatype Closer = NotCalled | Signalled | Drained

  datatype State = State(
    counter: nat,
    requests: map<nat, Phase>,
    channels: map<nat, Channel>,
    pending: map<string, nat>,
    dispatchers: map<nat, Dispatch>,
    closer: Closer,
    readErr: Option<string>,
    panicked: bool)

  const START := State(0, map[], map[], map[], map[], NotCalled, None, false)

  // ---------- channel operations ----------

  predicate CanSend(c: Channel) {
    c.buf.None? || c.closed
  }

  /** A send on a closed channel panics; on a full one it does not happen. */
  function Send(s: State, n: nat, r: Response): State
    requires n in s.channels && CanSend(s.channels[n])
  {
    var c := s.channels[n];
    if c.closed then s.(panicked := true)
    else s.(channels := s.channels[n := c.(buf := Some(r), sent := c.sent + 1)])
  }

  /** Closing a closed channel panics. */
  function CloseChannel(s: State, n: nat): State
    requires n in s.channels
  {
    var c := s.channels[n];
    if c.closed then s.(panicked := true)
    else s.(channels := s.channels[n := c.(closed := true)])
  }

  /** The lock region of failPending and Close: send to, close and forget every pending channel. */
  predicate CanDrain(s: State) {
    forall n | n in s.channels && n in s.pending.Values :: CanSend(s.channels[n])
  }

  function Drain(s: State, r: Response): State {
    s.(channels := map n | n in s.channels ::
         if n in s.pending.Values && !s.channels[n].closed then Channel(Some(r), true, s.channels[n].sent + 1)
         else s.channels[n],
       pending := map[],
       panicked := s.panicked || exists n | n in s.channels && n in s.pending.Values :: s.channels[n].closed)
  }

  // ---------- steps ----------

  datatype Step =
    | TakeID(mine: bool)
    | Register(n: nat)
    | WriteOk(n: nat)
    | WriteDone(n: nat)
    | Unregister(n: nat)
    | ChooseCancel(n: nat)
    | ChooseClosed(n: nat)
    | Receive(n: nat)
    | DispatchRemove(d: nat, msg: Message)
    | DispatchSend(d: nat)
    | DispatchClose(d: nat)
    | FailPending(err: string)
    | CloseSignal
    | CloseDrain

  predicate InPhase(s: State, n: nat, p: Phase) {
    n in s.requests && s.requests[n] == p
  }

  function Goto(s: State, n: nat, p: Phase): State {
    s.(requests := s.requests[n := p])
  }

  ghost predicate Next(s: State, s': State, step: Step) {
    match step
    // nextID: the counter is shared with the other clients of the process
    case TakeID(mine) =>
      s' == (if mine then Goto(s, s.counter + 1, Numbered) else s).(counter := s.counter + 1)
    // a fresh channel goes into the pending map under the request's id
    case Register(n) =>
      && InPhase(s, n, Numbered)
      && s' == Goto(s, n, Writing).(channels := s.channels[n := OPEN_CHANNEL], pending := s.pending[Itoa(n) := n])
    // the write succeeded, or the server will answer asynchronously
    case WriteOk(n) => InPhase(s, n, Writing) && s' == Goto(s, n, Awaiting)
    // the write failed, or its reply carried the result
    case WriteDone(n) => InPhase(s, n, Writing) && s' == Goto(s, n, Unregistering(Direct))
    case Unregister(n) =>
      && n in s.requests && s.requests[n].Unregistering?
      && s' == Goto(s, n, Returned(s.requests[n].outcome)).(pending := s.pending - {Itoa(n)})
    // the select of awaitPending
    case ChooseCancel(n) => InPhase(s, n, Awaiting) && s' == Goto(s, n, Unregistering(Cancelled))
    case ChooseClosed(n) => InPhase(s, n, Awaiting) && s.closer != NotCalled && s' == Goto(s, n, Returned(SawClose))
    case Receive(n) =>
      && InPhase(s, n, Awaiting) && n in s.channels
      && var c := s.channels[n];
         if c.buf.Some? then s' == Goto(s, n, Returned(Answer(c.buf.value))).(channels := s.channels[n := c.(buf := None)])
         else c.closed && s' == Goto(s, n, Returned(ZeroValue))
    // dispatchRPCMessage: a lock region, a send and a close
    case DispatchRemove(d, msg) =>
      && d !in s.dispatchers
      && var id := NormalizeID(msg.id);
         if id.Some? && id.value in s.pending then
           s' == s.(pending := s.pending - {id.value}, dispatchers := s.dispatchers[d := Removed(s.pending[id.value], msg)])
         else s' == s
    case DispatchSend(d) =>
      && d in s.dispatchers && s.dispatchers[d].Removed?
      && var n := s.dispatchers[d].req;
         && n in s.channels && CanSend(s.channels[n])
         && s' == Send(s, n, FromServer(s.dispatchers[d].msg)).(dispatchers := s.dispatchers[d := Sent(n)])
    case DispatchClose(d) =>
      && d in s.dispatchers && s.dispatchers[d].Sent?
      && s.dispatchers[d].req in s.channels
      && s' == CloseChannel(s, s.dispatchers[d].req).(dispatchers := s.dispatchers - {d})
    case FailPending(err) =>
      CanDrain(s) && s' == Drain(s, Failed(err)).(readErr := if s.readErr.None? then Some(err) else s.readErr)
    // Close runs once: it closes closedCh, and later drains the pending map
    case CloseSignal => s.closer == NotCalled && s' == s.(closer := Signalled)
    case CloseDrain => s.closer == Signalled && CanDrain(s) && s' == Drain(s, ClientClosed).(closer := Drained)
  }

  // ---------- the invariant ----------

  /** Some dispatcher has taken the request's channel and not sent its value yet. */
  predicate ToBeSent(s: State, n: nat) {
    exists d | d in s.dispatchers :: s.dispatchers[d].Removed? && s.dispatchers[d].req == n
  }

  predicate IsPending(s: State, n: nat) {
    Itoa(n) in s.pending
  }

  predicate IsOwn(n: nat, r: Response) {
    r.FromServer? ==> NormalizeID(r.msg.id) == Some(Itoa(n))
  }

  /** Every id comes from the counter, and a channel is made when a request registers. */
  ghost predicate IdsInv(s: State) {
    && (forall n | n in s.requests :: n <= s.counter)
    && (forall n | n in s.requests :: s.requests[n] != Numbered <==> n in s.channels)
    && (forall n | n in s.channels :: n in s.requests)
    && (forall id | id in s.pending :: id == Itoa(s.pending[id]) && s.pending[id] in s.channels)
  }

  /** One channel: at most one value is ever sent, by whoever took it out of the pending map. */
  predicate ChannelInv(s: State, n: nat)
    requires n in s.channels
  {
    var c := s.channels[n];
    && c.sent <= 1
    && (c.buf.Some? ==> c.sent == 1 && IsOwn(n, c.buf.value))
    && (c.closed ==> c.sent == 1)
    && (IsPending(s, n) ==> c == OPEN_CHANNEL)
  }

  /** One dispatcher: its channel left the pending map and awaits exactly its value. */
  predicate DispatchInv(s: State, d: nat)
    requires d in s.dispatchers
  {
    var n := s.dispatchers[d].req;
    && n in s.channels && !IsPending(s, n)
    && match s.dispatchers[d]
       case Removed(_, msg) => s.channels[n] == OPEN_CHANNEL && NormalizeID(msg.id) == Some(Itoa(n))
       case Sent(_) => s.channels[n].sent == 1 && !s.channels[n].closed
  }

  /** One request: nobody loses its answer, and it never sees an empty closed channel. */
  predicate RequestInv(s: State, n: nat)
    requires n in s.requests
  {
    match s.requests[n]
    case Numbered => !IsPending(s, n)
    case Writing | Awaiting => IsPending(s, n) || ToBeSent(s, n) || (n in s.channels && s.channels[n].buf.Some?)
    case Unregistering(o) => o == Direct || o == Cancelled
    case Returned(o) =>
      && o != ZeroValue
      && (o.Answer? ==> IsOwn(n, o.r))
      && (IsPending(s, n) ==> s.closer != NotCalled)
  }

  ghost predicate Inv(s: State) {
    && !s.panicked
    && IdsInv(s)
    && (forall n | n in s.channels :: ChannelInv(s, n))
    && (forall d | d in s.dispatchers :: DispatchInv(s, d))
    && (forall d, d' | d in s.dispatchers && d' in s.dispatchers && s.dispatchers[d].req == s.dispatchers[d'].req :: d == d')
    && (forall n | n in s.requests :: RequestInv(s, n))
  }

  lemma IdsDiffer(n: nat)
    ensures forall m: nat | Itoa(m) == Itoa(n) :: m == n
  {
    forall m: nat | Itoa(m) == Itoa(n) ensures m == n {
      ItoaInjective(m, n);
    }
  }

  /** A step that leaves a request's phase, its place in the pending map and its value alone keeps it. */
  lemma SameRequest(s: State, s': State, n: nat)
    requires n in s.requests && n in s'.requests && s'.requests[n] == s.requests[n]
    requires IsPending(s, n) <==> IsPending(s', n)
    requires n in s.channels ==> n in s'.channels && (s.channels[n].buf.Some? ==> s'.channels[n].buf.Some?)
    requires s.closer != NotCalled ==> s'.closer != NotCalled
    requires ToBeSent(s, n) ==> ToBeSent(s', n)
    requires RequestInv(s, n)
    ensures RequestInv(s', n)
  {}

  lemma StillToBeSent(s: State, s': State, d: nat, n: nat)
    requires d in s.dispatchers && s.dispatchers[d].req != n
    requires forall d' | d' in s.dispatchers && d' != d :: d' in s'.dispatchers && s'.dispatchers[d'] == s.dispatchers[d']
    ensures ToBeSent(s, n) ==> ToBeSent(s', n)
  {
    if ToBeSent(s, n) {
      var d' :| d' in s.dispatchers && s.dispatchers[d'].Removed? && s.dispatchers[d'].req == n;
      assert s'.dispatchers[d'] == s.dispatchers[d'];
    }
  }

  lemma TakeIDKeepsInv(s: State, s': State, mine: bool)
    requires Inv(s) && Next(s, s', TakeID(mine))
    ensures Inv(s')
  {
    IdsDiffer(s.counter + 1);
    assert !IsPending(s, s.counter + 1);
    forall n | n in s'.requests ensures RequestInv(s', n) {
      assert n in s.requests ==> RequestInv(s, n);
      assert ToBeSent(s, n) ==> ToBeSent(s', n);
    }
    forall n | n in s'.channels ensures ChannelInv(s', n) { assert ChannelInv(s, n); }
    forall d | d in s'.dispatchers ensures DispatchInv(s', d) { assert DispatchInv(s, d); }
  }

  lemma RegisterKeepsInv(s: State, s': State, n: nat)
    requires Inv(s) && Next(s, s', Register(n))
    ensures Inv(s')
  {
    IdsDiffer(n);
    assert RequestInv(s, n);
    forall m | m in s'.requests ensures RequestInv(s', m) {
      if m != n { SameRequest(s, s', m); }
    }
    forall m | m in s'.channels ensures ChannelInv(s', m) {
      if m != n { assert ChannelInv(s, m); }
    }
    forall d | d in s'.dispatchers ensures DispatchInv(s', d) {
      assert DispatchInv(s, d);
    }
  }

  /** Steps of one request that only move it on, and perhaps out of the pending map. */
  lemma MoveKeepsInv(s: State, s': State, n: nat, p: Phase, forget: bool)
    requires Inv(s) && n in s.requests && s.requests[n] != Numbered && p != Numbered
    requires s' == Goto(s, n, p).(pending := if forget then s.pending - {Itoa(n)} else s.pending)
    requires forget || p.Awaiting? || p.Unregistering? || s.closer != NotCalled
    requires p.Awaiting? ==> s.requests[n] == Writing && !forget
    requires match p
             case Unregistering(o) => o == Direct || o == Cancelled
             case Returned(o) => o != ZeroValue && !o.Answer?
             case _ => p == Awaiting
    ensures Inv(s')
  {
    IdsDiffer(n);
    assert RequestInv(s, n);
    forall m | m in s'.requests ensures RequestInv(s', m) {
      assert RequestInv(s, m);
      assert ToBeSent(s, m) ==> ToBeSent(s', m);
      assert m != n ==> (IsPending(s, m) <==> IsPending(s', m));
    }
    forall m | m in s'.channels ensures ChannelInv(s', m) { assert ChannelInv(s, m); }
    forall d | d in s'.dispatchers ensures DispatchInv(s', d) { assert DispatchInv(s, d); }
  }

  lemma ReceiveKeepsInv(s: State, s': State, n: nat)
    requires Inv(s) && Next(s, s', Receive(n))
    ensures Inv(s')
  {
    assert RequestInv(s, n) && ChannelInv(s, n);
    assert forall d | d in s.dispatchers :: DispatchInv(s, d);
    assert s.channels[n].buf.Some?;
    forall m | m in s'.requests ensures RequestInv(s', m) {
      assert RequestInv(s, m);
      assert ToBeSent(s, m) ==> ToBeSent(s', m);
      assert IsPending(s, m) <==> IsPending(s', m);
    }
    forall m | m in s'.channels ensures ChannelInv(s', m) { assert ChannelInv(s, m); }
    forall d | d in s'.dispatchers ensures DispatchInv(s', d) { assert DispatchInv(s, d); }
  }

  lemma DispatchRemoveKeepsRequests(s: State, s': State, d: nat, msg: Message, n: nat)
    requires Inv(s) && Next(s, s', DispatchRemove(d, msg))
    requires NormalizeID(msg.id) == Some(Itoa(n)) && Itoa(n) in s.pending && s.pending[Itoa(n)] == n
    ensures forall m | m in s'.requests :: RequestInv(s', m)
  {
    IdsDiffer(n);
    assert s'.dispatchers[d] == Removed(n, msg);
    forall m | m in s'.requests ensures RequestInv(s', m) {
      assert RequestInv(s, m);
      if m != n {
        assert forall d' | d' in s.dispatchers :: s'.dispatchers[d'] == s.dispatchers[d'];
        SameRequest(s, s', m);
      }
    }
  }

  lemma DispatchRemoveKeepsInv(s: State, s': State, d: nat, msg: Message)
    requires Inv(s) && Next(s, s', DispatchRemove(d, msg))
    ensures Inv(s')
  {
    var id := NormalizeID(msg.id);
    if id.Some? && id.value in s.pending {
      var n := s.pending[id.value];
      IdsDiffer(n);
      assert ChannelInv(s, n);
      DispatchRemoveKeepsRequests(s, s', d, msg, n);
      forall d' | d' in s'.dispatchers ensures DispatchInv(s', d') {
        if d' != d { assert DispatchInv(s, d'); }
      }
      forall m | m in s'.channels ensures ChannelInv(s', m) { assert ChannelInv(s, m); }
    }
  }

  /** A dispatcher's send and close matter to the request of its channel only. */
  lemma DispatcherKeepsRequests(s: State, s': State, d: nat, step: Step)
    requires Inv(s) && Next(s, s', step) && (step == DispatchSend(d) || step == DispatchClose(d))
    requires !s'.panicked
    ensures forall m | m in s'.requests :: RequestInv(s', m)
  {
    assert DispatchInv(s, d);
    forall m | m in s'.requests ensures RequestInv(s', m) {
      assert RequestInv(s, m);
      if m != s.dispatchers[d].req {
        StillToBeSent(s, s', d, m);
        SameRequest(s, s', m);
      }
    }
  }

  lemma DispatchSendKeepsInv(s: State, s': State, d: nat)
    requires Inv(s) && Next(s, s', DispatchSend(d))
    ensures Inv(s')
  {
    assert DispatchInv(s, d);
    DispatcherKeepsRequests(s, s', d, DispatchSend(d));
    forall d' | d' in s'.dispatchers ensures DispatchInv(s', d') { assert DispatchInv(s, d'); }
    forall m | m in s'.channels ensures ChannelInv(s', m) { assert ChannelInv(s, m); }
  }

  lemma DispatchCloseKeepsInv(s: State, s': State, d: nat)
    requires Inv(s) && Next(s, s', DispatchClose(d))
    ensures Inv(s')
  {
    assert DispatchInv(s, d);
    DispatcherKeepsRequests(s, s', d, DispatchClose(d));
    forall d' | d' in s'.dispatchers ensures DispatchInv(s', d') { assert DispatchInv(s, d'); }
    forall m | m in s'.channels ensures ChannelInv(s', m) { assert ChannelInv(s, m); }
  }

  lemma PendingValues(s: State, n: nat)
    requires IdsInv(s)
    ensures n in s.pending.Values <==> IsPending(s, n)
  {
    if IsPending(s, n) {
      IdsDiffer(n);
      assert s.pending[Itoa(n)] == n;
    }
  }

  /** Draining resolves every pending channel and touches no other. */
  lemma DrainResolves(s: State, r: Response)
    requires Inv(s)
    ensures CanDrain(s) && !Drain(s, r).panicked && Drain(s, r).pending == map[]
    ensures forall n | n in s.channels ::
      Drain(s, r).channels[n] == if IsPending(s, n) then Channel(Some(r), true, 1) else s.channels[n]
  {
    forall n | n in s.channels
      ensures n in s.pending.Values <==> IsPending(s, n)
      ensures IsPending(s, n) ==> s.channels[n] == OPEN_CHANNEL
    {
      PendingValues(s, n);
      assert ChannelInv(s, n);
    }
  }

  lemma DrainKeepsInv(s: State, r: Response, closer: Closer, readErr: Option<string>)
    requires Inv(s) && !r.FromServer?
    requires s.closer != NotCalled ==> closer != NotCalled
    ensures Inv(Drain(s, r).(closer := closer, readErr := readErr))
  {
    var s' := Drain(s, r).(closer := closer, readErr := readErr);
    DrainResolves(s, r);
    forall m | m in s'.channels ensures ChannelInv(s', m) { assert ChannelInv(s, m); }
    forall d | d in s'.dispatchers ensures DispatchInv(s', d) { assert DispatchInv(s, d); }
    forall m | m in s'.requests ensures RequestInv(s', m) {
      assert RequestInv(s, m);
      assert ToBeSent(s, m) ==> ToBeSent(s', m);
      assert IsPending(s, m) ==> s.pending[Itoa(m)] in s.channels;
      IdsDiffer(m);
    }
  }

  lemma NextKeepsInv(s: State, s': State, step: Step)
    requires Inv(s) && Next(s, s', step)
    ensures Inv(s')
  {
    match step
    case TakeID(mine) => TakeIDKeepsInv(s, s', mine);
    case Register(n) => RegisterKeepsInv(s, s', n);
    case WriteOk(n) => MoveKeepsInv(s, s', n, Awaiting, false);
    case WriteDone(n) => MoveKeepsInv(s, s', n, Unregistering(Direct), false);
    case Unregister(n) =>
      assert RequestInv(s, n);
      MoveKeepsInv(s, s', n, Returned(s.requests[n].outcome), true);
    case ChooseCancel(n) => MoveKeepsInv(s, s', n, Unregistering(Cancelled), false);
    case ChooseClosed(n) => MoveKeepsInv(s, s', n, Returned(SawClose), false);
    case Receive(n) => ReceiveKeepsInv(s, s', n);
    case DispatchRemove(d, msg) => DispatchRemoveKeepsInv(s, s', d, msg);
    case DispatchSend(d) => DispatchSendKeepsInv(s, s', d);
    case DispatchClose(d) => DispatchCloseKeepsInv(s, s', d);
    case FailPending(err) => DrainKeepsInv(s, Failed(err), s.closer, s'.readErr);
    case CloseSignal => CloseSignalKeepsInv(s, s');
    case CloseDrain => DrainKeepsInv(s, ClientClosed, Drained, s.readErr);
  }

  lemma CloseSignalKeepsInv(s: State, s': State)
    requires Inv(s) && Next(s, s', CloseSignal)
    ensures Inv(s')
  {
    forall m | m in s'.channels ensures ChannelInv(s', m) { assert ChannelInv(s, m); }
    forall d | d in s'.dispatchers ensures DispatchInv(s', d) { assert DispatchInv(s, d); }
    forall m | m in s'.requests ensures RequestInv(s', m) {
      assert RequestInv(s, m);
      assert ToBeSent(s, m) ==> ToBeSent(s', m);
    }
  }

  // ---------- runs ----------

  ghost predicate IsRun(states: seq<State>, steps: seq<Step>) {
    && |states| == |steps| + 1 && states[0] == START
    && forall i | 0 <= i < |steps| :: Next(states[i], states[i + 1], steps[i])
  }

  lemma {:induction false} RunKeepsInv(states: seq<State>, steps: seq<Step>, i: nat)
    requires IsRun(states, steps) && i < |states|
    ensures Inv(states[i])
  {
    if i > 0 {
      RunKeepsInv(states, steps, i - 1);
      NextKeepsInv(states[i - 1], states[i], steps[i - 1]);
    }
  }

  /** In every state of every run: nothing panicked, each response channel was sent at most one value,
      no request returned from an empty closed channel, and a request answered by the server got a
      message with its own id. */
  lemma SingleResolution(states: seq<State>, steps: seq<Step>, i: nat, n: nat)
    requires IsRun(states, steps) && i < |states|
    ensures var s := states[i];
      && !s.panicked
      && (n in s.channels ==> s.channels[n].sent <= 1)
      && !InPhase(s, n, Returned(ZeroValue))
      && forall msg :: InPhase(s, n, Returned(Answer(FromServer(msg)))) ==> NormalizeID(msg.id) == Some(Itoa(n))
  {
    RunKeepsInv(states, steps, i);
    assert n in states[i].channels ==> ChannelInv(states[i], n);
    assert n in states[i].requests ==> RequestInv(states[i], n);
  }

  /** No dispatcher ever blocks on its send or meets a closed channel, and the lock regions that drain
      the pending map never block. */
  lemma NoSendBlocks(states: seq<State>, steps: seq<Step>, i: nat, d: nat)
    requires IsRun(states, steps) && i < |states|
    ensures var s := states[i];
      && CanDrain(s)
      && (d in s.dispatchers ==> var n := s.dispatchers[d].req;
            n in s.channels && !s.channels[n].closed && (s.dispatchers[d].Removed? ==> s.channels[n].buf.None?))
  {
    RunKeepsInv(states, steps, i);
    DrainResolves(states[i], ClientClosed);
    assert d in states[i].dispatchers ==> DispatchInv(states[i], d);
  }

  /** A request still waiting is pending, or a dispatcher is about to answer it, or its answer is
      ready to be received. */
  lemma NoLostWaiter(states: seq<State>, steps: seq<Step>, i: nat, n: nat)
    requires IsRun(states, steps) && i < |states| && InPhase(states[i], n, Awaiting)
    ensures var s := states[i];
      && n in s.channels
      && (IsPending(s, n) || ToBeSent(s, n) || s.channels[n].buf.Some?)
  {
    RunKeepsInv(states, steps, i);
    assert RequestInv(states[i], n);
  }

  /** failPending and Close resolve every request pending at that moment: each can receive the failure
      at once, and none is left pending. */
  lemma DrainResolvesPending(states: seq<State>, steps: seq<Step>, i: nat, n: nat)
    requires IsRun(states, steps) && i < |steps| && (steps[i].FailPending? || steps[i].CloseDrain?)
    requires IsPending(states[i], n)
    ensures var r := if steps[i].FailPending? then Failed(steps[i].err) else ClientClosed;
      && n in states[i + 1].channels && states[i + 1].channels[n] == Channel(Some(r), true, 1)
      && states[i + 1].pending == map[]
  {
    RunKeepsInv(states, steps, i);
    var s := states[i];
    assert IdsInv(s) && Next(s, states[i + 1], steps[i]);
    PendingIsChannel(s, n);
    DrainResolves(s, if steps[i].FailPending? then Failed(steps[i].err) else ClientClosed);
  }

  lemma PendingIsChannel(s: State, n: nat)
    requires IdsInv(s) && IsPending(s, n)
    ensures n in s.channels
  {
    IdsDiffer(n);
    assert s.pending[Itoa(n)] == n;
  }

  /** A request that has returned leaves nothing behind in the pending map, unless the client was closed
      under it. */
  lemma NoLeak(states: seq<State>, steps: seq<Step>, i: nat, n: nat)
    requires IsRun(states, steps) && i < |states|
    requires n in states[i].requests && states[i].requests[n].Returned? && IsPending(states[i], n)
    ensures states[i].closer != NotCalled
  {
    RunKeepsInv(states, steps, i);
    assert RequestInv(states[i], n);
  }

  /** What a request returned never changes later. */
  lemma {:induction false} OutcomeIsFinal(states: seq<State>, steps: seq<Step>, i: nat, j: nat, n: nat)
    requires IsRun(states, steps) && i <= j < |states|
    requires n in states[i].requests && states[i].requests[n].Returned?
    ensures InPhase(states[j], n, states[i].requests[n])
  {
    if i < j {
      OutcomeIsFinal(states, steps, i, j - 1, n);
      RunKeepsInv(states, steps, j - 1);
      assert Next(states[j - 1], states[j], steps[j - 1]);
    }
  }

  // ---------- replies ----------

  /** The number is cut toward zero: what is cut off is less than one and has the number's sign. */
  lemma TruncateTowardZero(f: real)
    ensures var cut := f - Truncate(f) as real;
      if f >= 0.0 then 0.0 <= cut < 1.0 else -1.0 < cut <= 0.0
  {}

  lemma TruncateWhole(n: int)
    ensures Truncate(n as real) == n
  {
    assert (n as real).Floor == n && (-(n as real)).Floor == -n;
  }

  /** The ways a server can echo a request's id. */
  predicate Echoes(id: RpcId, n: nat) {
    id == StringId(Itoa(n)) || id == LiteralId(Itoa(n)) || id == NumberId(n as real)
  }

  /** A reply that echoes the id of a pending request takes that request, and no other, out of the map. */
  lemma EchoIsTaken(s: State, s': State, d: nat, msg: Message, n: nat)
    requires Inv(s) && Next(s, s', DispatchRemove(d, msg))
    requires IsPending(s, n) && Echoes(msg.id, n)
    ensures d in s'.dispatchers && s'.dispatchers[d] == Removed(n, msg)
    ensures !IsPending(s', n)
    ensures forall m: nat | m != n :: IsPending(s', m) <==> IsPending(s, m)
  {
    TruncateWhole(n);
    PendingIsItself(s, n);
    IdsDiffer(n);
  }

  lemma PendingIsItself(s: State, n: nat)
    requires IdsInv(s) && IsPending(s, n)
    ensures s.pending[Itoa(n)] == n
  {
    ItoaInjective(s.pending[Itoa(n)], n);
  }

  /** No other message does anything: one without an id, or with an id under which nothing is pending. */
  lemma StrangeReplyIgnored(s: State, s': State, d: nat, msg: Message)
    requires Next(s, s', DispatchRemove(d, msg))
    requires match msg.id
             case StringId(id) => id !in s.pending
             case LiteralId(id) => id !in s.pending
             case NumberId(f) => Itoa(Truncate(f)) !in s.pending
             case OtherId => true
    ensures s' == s
  {}

  // ---------- where answers come from ----------

  /** An earlier step brought what the response says. */
  ghost predicate Brought(steps: seq<Step>, i: nat, r: Response)
    requires i <= |steps|
  {
    exists k | 0 <= k < i ::
      match r
      case FromServer(msg) => steps[k].DispatchRemove? && steps[k].msg == msg
      case Failed(err) => steps[k] == FailPending(err)
      case ClientClosed => steps[k] == CloseDrain
  }

  /** Every response under way, buffered, about to be sent or returned, is known. */
  ghost predicate AllKnown(s: State, known: Response -> bool) {
    && KnownChannels(s.channels, known)
    && KnownDispatchers(s.dispatchers, known)
    && KnownRequests(s.requests, known)
  }

  ghost predicate KnownChannels(channels: map<nat, Channel>, known: Response -> bool) {
    forall n | n in channels && channels[n].buf.Some? :: known(channels[n].buf.value)
  }

  ghost predicate KnownDispatchers(dispatchers: map<nat, Dispatch>, known: Response -> bool) {
    forall d | d in dispatchers && dispatchers[d].Removed? :: known(FromServer(dispatchers[d].msg))
  }

  ghost predicate KnownRequests(requests: map<nat, Phase>, known: Response -> bool) {
    forall n | n in requests && AnsweredWith(requests[n]).Some? :: known(AnsweredWith(requests[n]).value)
  }

  function AnsweredWith(p: Phase): Option<Response> {
    match p
    case Unregistering(Answer(r)) => Some(r)
    case Returned(Answer(r)) => Some(r)
    case _ => None
  }

  lemma BroughtLater(steps: seq<Step>, i: nat)
    requires i < |steps|
    ensures forall r | Brought(steps, i, r) :: Brought(steps, i + 1, r)
  {
    forall r | Brought(steps, i, r) ensures Brought(steps, i + 1, r) {
      var k :| 0 <= k < i &&
        match r
        case FromServer(msg) => steps[k].DispatchRemove? && steps[k].msg == msg
        case Failed(err) => steps[k] == FailPending(err)
        case ClientClosed => steps[k] == CloseDrain;
      assert 0 <= k < i + 1;
    }
  }

  lemma BroughtNow(steps: seq<Step>, i: nat)
    requires i < |steps|
    ensures NewResponse(steps[i]).Some? ==> Brought(steps, i + 1, NewResponse(steps[i]).value)
  {}

  /** The response a step brings into play. */
  function NewResponse(step: Step): Option<Response> {
    match step
    case DispatchRemove(_, msg) => Some(FromServer(msg))
    case FailPending(err) => Some(Failed(err))
    case CloseDrain => Some(ClientClosed)
    case _ => None
  }

  lemma GotoKeepsKnown(requests: map<nat, Phase>, n: nat, p: Phase, known: Response -> bool)
    requires KnownRequests(requests, known) && (AnsweredWith(p).Some? ==> known(AnsweredWith(p).value))
    ensures KnownRequests(requests[n := p], known)
  {}

  lemma RequestKeepsKnown(s: State, s': State, step: Step, known: Response -> bool)
    requires Next(s, s', step) && AllKnown(s, known)
    requires step.TakeID? || step.Register? || step.WriteOk? || step.WriteDone?
          || step.Unregister? || step.ChooseCancel? || step.ChooseClosed?
    ensures AllKnown(s', known)
  {
    match step
    case TakeID(_) => GotoKeepsKnown(s.requests, s.counter + 1, Numbered, known);
    case Register(n) => GotoKeepsKnown(s.requests, n, Writing, known);
    case WriteOk(n) => GotoKeepsKnown(s.requests, n, Awaiting, known);
    case WriteDone(n) => GotoKeepsKnown(s.requests, n, Unregistering(Direct), known);
    case Unregister(n) => GotoKeepsKnown(s.requests, n, Returned(s.requests[n].outcome), known);
    case ChooseCancel(n) => GotoKeepsKnown(s.requests, n, Unregistering(Cancelled), known);
    case ChooseClosed(n) => GotoKeepsKnown(s.requests, n, Returned(SawClose), known);
  }

  lemma ReceiveKeepsKnown(s: State, s': State, n: nat, known: Response -> bool)
    requires Next(s, s', Receive(n)) && AllKnown(s, known)
    ensures AllKnown(s', known)
  {
    var c := s.channels[n];
    GotoKeepsKnown(s.requests, n, if c.buf.Some? then Returned(Answer(c.buf.value)) else Returned(ZeroValue), known);
  }

  lemma DispatcherKeepsKnown(s: State, s': State, step: Step, known: Response -> bool)
    requires Next(s, s', step) && AllKnown(s, known) && (step.DispatchSend? || step.DispatchClose?)
    ensures AllKnown(s', known)
  {}

  lemma RemoveKeepsKnown(s: State, s': State, d: nat, msg: Message, known: Response -> bool)
    requires Next(s, s', DispatchRemove(d, msg)) && AllKnown(s, known) && known(FromServer(msg))
    ensures AllKnown(s', known)
  {}

  lemma StepKeepsKnown(s: State, s': State, step: Step, known: Response -> bool)
    requires Next(s, s', step) && AllKnown(s, known)
    requires NewResponse(step).Some? ==> known(NewResponse(step).value)
    ensures AllKnown(s', known)
  {
    match step
    case FailPending(err) => DrainKeepsKnown(s, Failed(err), known);
    case CloseDrain => DrainKeepsKnown(s, ClientClosed, known);
    case DispatchRemove(d, msg) => RemoveKeepsKnown(s, s', d, msg, known);
    case DispatchSend(_) | DispatchClose(_) => DispatcherKeepsKnown(s, s', step, known);
    case Receive(n) => ReceiveKeepsKnown(s, s', n, known);
    case CloseSignal =>
    case _ => RequestKeepsKnown(s, s', step, known);
  }

  lemma DrainKeepsKnown(s: State, r: Response, known: Response -> bool)
    requires AllKnown(s, known) && known(r)
    ensures AllKnown(Drain(s, r), known)
  {}

  lemma {:induction false} RunBrings(states: seq<State>, steps: seq<Step>, i: nat)
    requires IsRun(states, steps) && i < |states|
    ensures AllKnown(states[i], r => i <= |steps| && Brought(steps, i, r))
  {
    if i > 0 {
      RunBrings(states, steps, i - 1);
      BroughtLater(steps, i - 1);
      BroughtNow(steps, i - 1);
      var known := r => i <= |steps| && Brought(steps, i, r);
      assert AllKnown(states[i - 1], known);
      StepKeepsKnown(states[i - 1], states[i], steps[i - 1], known);
    }
  }

  /** No answer is made up: a request that returned one was sent it, by a message that was dispatched, by a
      failure or by the close, earlier in the run. */
  lemma AnswersAreBrought(states: seq<State>, steps: seq<Step>, i: nat, n: nat, r: Response)
    requires IsRun(states, steps) && i < |states| && InPhase(states[i], n, Returned(Answer(r)))
    ensures Brought(steps, i, r)
  {
    RunBrings(states, steps, i);
    assert AnsweredWith(states[i].requests[n]) == Some(r);
  }
}
