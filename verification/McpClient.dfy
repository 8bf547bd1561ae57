/** The lock regions and channel operations of the MCP client (internal/mcp/client.go), each of them a
    step of the protocol. The phases of the requests and the dispatchers under way are ghost: in the
    program they are where the goroutines stand. */
module McpClient {
  import opened Text
  import opened McpProtocol

  class Client {
    var counter: nat
    var channels: map<nat, Channel>
    var pending: map<string, nat>
    var closer: Closer
    var readErr: Option<string>
    ghost var requests: map<nat, Phase>
    ghost var dispatchers: map<nat, Dispatch>
    ghost var panicked: bool

    ghost function View(): State
      reads this
    {
      State(counter, requests, channels, pending, dispatchers, closer, readErr, panicked)
    }

    constructor ()
      ensures View() == START && Inv(View())
    {
      counter, channels, pending, closer, readErr := 0, map[], map[], NotCalled, None;
      requests, dispatchers, panicked := map[], map[], false;
    }

    /** nextID, for a request of this client */
    method NextID() returns (n: nat)
      requires Inv(View())
      modifies this
      ensures Next(old(View()), View(), TakeID(true)) && Inv(View())
      ensures n == counter && InPhase(View(), n, Numbered)
    {
      counter := counter + 1;
      n := counter;
      requests := requests[n := Numbered];
      NextKeepsInv(old(View()), View(), TakeID(true));
    }

    /** The first lock region of requestAsync and requestSSE. */
    method RegisterRequest(n: nat)
      requires Inv(View()) && InPhase(View(), n, Numbered)
      modifies this
      ensures Next(old(View()), View(), Register(n)) && Inv(View())
    {
      channels := channels[n := OPEN_CHANNEL];
      pending := pending[Itoa(n) := n];
      requests := requests[n := Writing];
      NextKeepsInv(old(View()), View(), Register(n));
    }

    /** The lock region that forgets a request after a failed write, a direct answer or a cancellation. */
    method Forget(n: nat)
      requires Inv(View()) && n in requests && requests[n].Unregistering?
      modifies this
      ensures Next(old(View()), View(), Unregister(n)) && Inv(View())
    {
      pending := pending - {Itoa(n)};
      requests := requests[n := Returned(requests[n].outcome)];
      NextKeepsInv(old(View()), View(), Unregister(n));
    }

    /** The select of awaitPending, when the response channel is ready. It never yields the zero value. */
    method ReceiveResponse(n: nat) returns (r: Response)
      requires Inv(View()) && InPhase(View(), n, Awaiting)
      requires n in channels && (channels[n].buf.Some? || channels[n].closed)
      modifies this
      ensures Next(old(View()), View(), Receive(n)) && Inv(View())
      ensures InPhase(View(), n, Returned(Answer(r))) && IsOwn(n, r)
    {
      assert RequestInv(View(), n) && ChannelInv(View(), n);
      OpenOrBuffered(View(), n);
      r := channels[n].buf.value;
      channels := channels[n := channels[n].(buf := None)];
      requests := requests[n := Returned(Answer(r))];
      NextKeepsInv(old(View()), View(), Receive(n));
    }

    /** The lock region of dispatchRPCMessage. */
    method TakePending(msg: Message, ghost d: nat) returns (found: Option<nat>)
      requires Inv(View()) && d !in dispatchers
      modifies this
      ensures Next(old(View()), View(), DispatchRemove(d, msg)) && Inv(View())
      ensures found.Some? <==> d in dispatchers
      ensures found.Some? ==> dispatchers[d] == Removed(found.value, msg)
      ensures found == match msg.id
        case StringId(s) => Find(old(pending), s)
        case LiteralId(s) => Find(old(pending), s)
        case NumberId(f) => Find(old(pending), Itoa(Truncate(f)))
        case OtherId => None
      ensures pending == if found.Some? then old(pending) - {Itoa(found.value)} else old(pending)
    {
      found := None;
      var id := NormalizeID(msg.id);
      if id.Some? && id.value in pending {
        found := Some(pending[id.value]);
        pending := pending - {id.value};
        dispatchers := dispatchers[d := Removed(found.value, msg)];
      }
      NextKeepsInv(old(View()), View(), DispatchRemove(d, msg));
    }

    /** The send of dispatchRPCMessage, outside the lock: the channel is open and has room. */
    method SendResponse(n: nat, msg: Message, ghost d: nat)
      requires Inv(View()) && d in dispatchers && dispatchers[d] == Removed(n, msg)
      modifies this
      ensures Next(old(View()), View(), DispatchSend(d)) && Inv(View())
      ensures d in dispatchers && dispatchers[d] == Sent(n)
    {
      assert DispatchInv(View(), d);
      channels := channels[n := Channel(Some(FromServer(msg)), channels[n].closed, channels[n].sent + 1)];
      dispatchers := dispatchers[d := Sent(n)];
      NextKeepsInv(old(View()), View(), DispatchSend(d));
    }

    method CloseResponse(n: nat, ghost d: nat)
      requires Inv(View()) && d in dispatchers && dispatchers[d] == Sent(n)
      modifies this
      ensures Next(old(View()), View(), DispatchClose(d)) && Inv(View())
    {
      assert DispatchInv(View(), d);
      channels := channels[n := channels[n].(closed := true)];
      dispatchers := dispatchers - {d};
      NextKeepsInv(old(View()), View(), DispatchClose(d));
    }

    /** The loop of failPending and Close over the pending map, in whatever order the map yields. */
    method ResolveAll(r: Response)
      requires PendingOpen(View())
      modifies this`channels, this`pending
      ensures View() == Drain(old(View()), r)
    {
      ghost var s := View();
      while pending != map[]
        invariant IsResolving(s, channels, pending, r)
        decreases |pending|
      {
        var id :| id in pending;
        var n := pending[id];
        ResolveOne(s, channels, pending, r, id);
        SendAndClose(n, r);
        pending := pending - {id};
      }
      AllResolved(s, channels, r);
    }

    method SendAndClose(n: nat, r: Response)
      requires n in channels && channels[n] == OPEN_CHANNEL
      modifies this`channels
      ensures channels == old(channels)[n := Channel(Some(r), true, 1)]
    {
      channels := channels[n := Channel(Some(r), channels[n].closed, channels[n].sent + 1)];
      channels := channels[n := channels[n].(closed := true)];
    }

    method FailPending(err: string)
      requires Inv(View())
      modifies this
      ensures Next(old(View()), View(), McpProtocol.FailPending(err)) && Inv(View())
      ensures readErr == if old(readErr).None? then Some(err) else old(readErr)
    {
      if readErr.None? {
        readErr := Some(err);
      }
      FailedStep(old(View()), err);
      ResolveAll(Failed(err));
    }

    /** Close signals closedCh first. */
    method SignalClose()
      requires Inv(View()) && closer == NotCalled
      modifies this
      ensures Next(old(View()), View(), CloseSignal) && Inv(View())
    {
      closer := Signalled;
      NextKeepsInv(old(View()), View(), CloseSignal);
    }

    /** Later it resolves what is still pending. */
    method DrainOnClose()
      requires Inv(View()) && closer == Signalled
      modifies this
      ensures Next(old(View()), View(), CloseDrain) && Inv(View())
    {
      DrainResolves(View(), ClientClosed);
      InvPendingOpen(View());
      ResolveAll(ClientClosed);
      closer := Drained;
      NextKeepsInv(old(View()), View(), CloseDrain);
    }
  }

  function Find<T>(m: map<string, T>, key: string): Option<T> {
    if key in m then Some(m[key]) else None
  }

  /** Pending ids name open and empty channels. */
  ghost predicate PendingOpen(s: State) {
    && (forall id | id in s.pending :: id == Itoa(s.pending[id]) && s.pending[id] in s.channels)
    && (forall n | n in s.channels && IsPending(s, n) :: s.channels[n] == OPEN_CHANNEL)
  }

  lemma InvPendingOpen(s: State)
    requires Inv(s)
    ensures PendingOpen(s)
  {
    forall n | n in s.channels && IsPending(s, n) ensures s.channels[n] == OPEN_CHANNEL {
      assert ChannelInv(s, n);
    }
  }

  /** Exactly the pending channels that are no longer in `left` have been resolved. */
  ghost predicate IsResolving(s: State, channels: map<nat, Channel>, left: map<string, nat>, r: Response) {
    && (forall n :: n in channels <==> n in s.channels)
    && (forall n | n in channels ::
          channels[n] == if IsDone(s, left, n) then Channel(Some(r), true, 1) else s.channels[n])
    && (forall id | id in left :: id in s.pending && left[id] == s.pending[id])
  }

  /** Is the request's channel no longer to be resolved? */
  predicate IsDone(s: State, left: map<string, nat>, n: nat) {
    IsPending(s, n) && Itoa(n) !in left
  }

  lemma DoneNext(s: State, left: map<string, nat>, id: string, n: nat)
    requires id in left && id == Itoa(left[id]) && id in s.pending
    ensures IsDone(s, left - {id}, n) <==> n == left[id] || IsDone(s, left, n)
  {
    if Itoa(n) == id {
      ItoaInjective(n, left[id]);
    }
  }

  lemma ResolveOne(s: State, channels: map<nat, Channel>, left: map<string, nat>, r: Response, id: string)
    requires PendingOpen(s) && IsResolving(s, channels, left, r) && id in left
    ensures left[id] in channels && channels[left[id]] == OPEN_CHANNEL
    ensures IsResolving(s, channels[left[id] := Channel(Some(r), true, 1)], left - {id}, r)
  {
    assert s.pending[id] == left[id] && id == Itoa(left[id]);
    forall n ensures IsDone(s, left - {id}, n) <==> n == left[id] || IsDone(s, left, n) {
      DoneNext(s, left, id, n);
    }
  }

  lemma AllResolved(s: State, channels: map<nat, Channel>, r: Response)
    requires PendingOpen(s) && IsResolving(s, channels, map[], r)
    ensures Drain(s, r) == s.(channels := channels, pending := map[])
  {
    forall n | n in s.channels ensures n in s.pending.Values <==> IsPending(s, n) {
      if IsPending(s, n) {
        IdsDiffer(n);
        assert s.pending[Itoa(n)] == n;
      }
    }
    assert Drain(s, r).channels == channels;
  }

  lemma FailedStep(s: State, err: string)
    requires Inv(s)
    ensures var e := if s.readErr.None? then Some(err) else s.readErr;
      && PendingOpen(s.(readErr := e))
      && Next(s, Drain(s.(readErr := e), Failed(err)), McpProtocol.FailPending(err))
      && Inv(Drain(s.(readErr := e), Failed(err)))
  {
    var e := if s.readErr.None? then Some(err) else s.readErr;
    InvPendingOpen(s);
    DrainResolves(s, Failed(err));
    assert Drain(s.(readErr := e), Failed(err)) == Drain(s, Failed(err)).(readErr := e);
    NextKeepsInv(s, Drain(s, Failed(err)).(readErr := e), McpProtocol.FailPending(err));
  }

  /** A closed channel a request still waits on holds its answer. */
  lemma OpenOrBuffered(s: State, n: nat)
    requires Inv(s) && InPhase(s, n, Awaiting) && n in s.channels
    ensures s.channels[n].closed ==> s.channels[n].buf.Some?
  {
    assert RequestInv(s, n) && ChannelInv(s, n);
    if ToBeSent(s, n) {
      var d :| d in s.dispatchers && s.dispatchers[d].Removed? && s.dispatchers[d].req == n;
      assert DispatchInv(s, d);
    }
  }
}
