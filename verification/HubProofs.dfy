/** What every interleaving of hub steps keeps. */
module HubProofs {
  import opened Options
  import opened HubModel

  predicate IsCurrent(h: Hub, c: ConnId) {
    c in h.agents && Current(h, h.agents[c].server) == Some(c)
  }

  /** A handler whose connection may be the current one. */
  predicate Installed(pc: HandlerPc) {
    !pc.Authed? && !pc.ClosingOwn? && !pc.Gone?
  }

  predicate BeforeCheck(pc: HandlerPc) {
    pc.Authed? || pc.ClosingOld? || pc.Checking?
  }

  /** In the read loop, or handling one of its messages. */
  predicate Serving(pc: HandlerPc) {
    pc.Reading? || pc.Finishing? || pc.Holding? || pc.Claimed?
  }

  // ----- the invariant, one concern at a time -----

  /** The map points to open connections of the right server, held by handlers that are still there. */
  ghost predicate RegisteredOk(s: State) {
    && (forall v | v in s.hub.conns ::
          var c := s.hub.conns[v];
          && c in s.hub.agents && s.hub.agents[c].server == v && !s.hub.agents[c].closed
          && c in s.handlers && Installed(s.handlers[c].pc))
    && (forall c | c in s.handlers :: s.handlers[c].pc.Authed? <==> c !in s.hub.agents)
    && (forall c | c in s.hub.agents :: c in s.handlers && s.handlers[c].server == s.hub.agents[c].server)
  }

  ghost predicate JobOk(s: State, job: Job) {
    && job.target in s.hub.agents && !IsCurrent(s.hub, job.target)
    && (s.hub.agents[job.target].closed <==> job.Reporting?)
  }

  /** A connection being closed is out of the map, and no two closers share one. */
  ghost predicate JobsOk(s: State) {
    && (forall k | JobOf(s, k).Some? :: JobOk(s, JobOf(s, k).value))
    && (forall a, b | JobOf(s, a).Some? && JobOf(s, b).Some?
                      && JobOf(s, a).value.target == JobOf(s, b).value.target :: a == b)
  }

  /** Closed means drained; open and out of the map means some closer is about to drain it. */
  ghost predicate OwnedOk(s: State) {
    forall c | c in s.hub.agents ::
      && (s.hub.agents[c].closed ==> s.hub.agents[c].pending == {})
      && (!s.hub.agents[c].closed && !IsCurrent(s.hub, c) ==> exists k :: JobOf(s, k) == Some(Drain(c)))
  }

  /** Exactly the connections that left the map were handed to `closeAgent`, each once. */
  ghost predicate ClosingsOk(s: State) {
    && (forall i, j | 0 <= i < j < |s.closings| :: s.closings[i] != s.closings[j])
    && (forall c | c in s.hub.agents :: c in s.closings <==> !IsCurrent(s.hub, c))
    && (forall c | c in s.closings :: c in s.hub.agents)
  }

  predicate Disconnected(s: State, v: ServerId) {
    v in s.deleters && s.deleters[v] != RowRemoved
  }

  /** A deleted row stays deleted, and after the disconnect no current connection has passed its check. */
  ghost predicate RowsOk(s: State) {
    && s.rows <= s.used
    && (forall v | v in s.deleters :: v in s.used && v !in s.rows)
    && (forall c | c in s.handlers ::
          && (BeforeCheck(s.handlers[c].pc) ==> !s.handlers[c].passed)
          && (Serving(s.handlers[c].pc) ==> s.handlers[c].passed))
    && (forall v | Disconnected(s, v) && v in s.hub.conns ::
          s.hub.conns[v] in s.handlers ==> !s.handlers[s.hub.conns[v]].passed)
  }

  // ----- where a command is -----

  datatype Place =
    | PendingOn(conn: ConnId)
    | DrainedBy(closer: Closer)
    | ClaimedBy(conn: ConnId)
    | ReportedAt(index: nat)

  ghost predicate HeldAt(s: State, id: CmdId, p: Place) {
    match p
    case PendingOn(c) => c in s.hub.agents && id in s.hub.agents[c].pending
    case DrainedBy(k) => JobOf(s, k).Some? && JobOf(s, k).value.Reporting? && id in JobOf(s, k).value.ids
    case ClaimedBy(c) => c in s.handlers && s.handlers[c].pc.Claimed? && s.handlers[c].pc.msg.id == id
    case ReportedAt(i) => i < |s.reports| && s.reports[i].id == id
  }

  predicate WasSent(s: State, id: CmdId) {
    id in s.senders && s.senders[id].pc.Sent?
  }

  /** `at` tells the one place of each sent command, and nothing else is held anywhere. */
  ghost predicate Locates(s: State, at: map<CmdId, Place>) {
    && (forall id, p :: HeldAt(s, id, p) ==> id in at && at[id] == p)
    && (forall id | id in at :: HeldAt(s, id, at[id]))
    && (forall id :: id in at <==> WasSent(s, id))
  }

  datatype Concern = Registered | Jobs | Owned | Closings | Rows | Located

  ghost predicate Holds(c: Concern, s: State) {
    match c
    case Registered => RegisteredOk(s)
    case Jobs => JobsOk(s)
    case Owned => OwnedOk(s)
    case Closings => ClosingsOk(s)
    case Rows => RowsOk(s)
    case Located => exists at :: Locates(s, at)
  }

  ghost predicate Inv(s: State) {
    forall c: Concern :: Holds(c, s)
  }

  lemma OpenInv(s: State)
    requires Inv(s)
    ensures RegisteredOk(s) && JobsOk(s) && OwnedOk(s) && ClosingsOk(s) && RowsOk(s) && exists at :: Locates(s, at)
  {
    assert Holds(Registered, s) && Holds(Jobs, s) && Holds(Owned, s);
    assert Holds(Closings, s) && Holds(Rows, s) && Holds(Located, s);
  }

  lemma CloseInv(s: State, at: map<CmdId, Place>)
    requires RegisteredOk(s) && JobsOk(s) && OwnedOk(s) && ClosingsOk(s) && RowsOk(s) && Locates(s, at)
    ensures Inv(s)
  {
  }

  // ----- steps that leave the hub and the closers alone -----

  ghost predicate SameClosing(s: State, s': State) {
    s'.hub == s.hub && s'.closings == s.closings && forall k :: JobOf(s', k) == JobOf(s, k)
  }

  lemma JobsFrame(s: State, s': State)
    requires JobsOk(s) && SameClosing(s, s')
    ensures JobsOk(s')
  {
    forall k | JobOf(s', k).Some? ensures JobOk(s', JobOf(s', k).value) {
      assert JobOf(s, k).Some?;
    }
    forall a, b | JobOf(s', a).Some? && JobOf(s', b).Some?
                  && JobOf(s', a).value.target == JobOf(s', b).value.target
      ensures a == b
    {
      assert JobOf(s, a).Some? && JobOf(s, b).Some?;
    }
  }

  lemma OwnedFrame(s: State, s': State)
    requires OwnedOk(s) && SameClosing(s, s')
    ensures OwnedOk(s')
  {
    forall c | c in s'.hub.agents && !s'.hub.agents[c].closed && !IsCurrent(s'.hub, c)
      ensures exists k :: JobOf(s', k) == Some(Drain(c))
    {
      var k :| JobOf(s, k) == Some(Drain(c));
      assert JobOf(s', k) == Some(Drain(c));
    }
  }

  ghost predicate SameHoldings(s: State, s': State) {
    && (forall id, p :: HeldAt(s', id, p) == HeldAt(s, id, p))
    && (forall id :: WasSent(s', id) == WasSent(s, id))
  }

  lemma LocatedFrame(s: State, s': State, at: map<CmdId, Place>)
    requires Locates(s, at) && SameHoldings(s, s')
    ensures Locates(s', at)
  {
    forall id, p | HeldAt(s', id, p) ensures id in at && at[id] == p {
      assert HeldAt(s, id, p);
    }
    forall id | id in at ensures HeldAt(s', id, at[id]) {
      assert HeldAt(s, id, at[id]);
    }
    forall id ensures id in at <==> WasSent(s', id) {
      assert WasSent(s', id) == WasSent(s, id);
    }
  }

  /** A handler moves between program points that neither close nor claim. */
  predicate Plain(pc: HandlerPc) {
    !pc.ClosingOld? && !pc.ClosingOwn? && !pc.Claimed?
  }

  function Move(s: State, c: ConnId, h: Handler): State {
    s.(handlers := s.handlers[c := h])
  }

  lemma MoveFrames(s: State, c: ConnId, h: Handler)
    requires Plain(h.pc) && (c in s.handlers ==> Plain(s.handlers[c].pc))
    ensures SameClosing(s, Move(s, c, h)) && SameHoldings(s, Move(s, c, h))
  {
    var s' := Move(s, c, h);
    forall k ensures JobOf(s', k) == JobOf(s, k) {
    }
    forall id, p ensures HeldAt(s', id, p) == HeldAt(s, id, p) {
      if p.DrainedBy? {
        assert JobOf(s', p.closer) == JobOf(s, p.closer);
      }
    }
  }

  lemma MoveKeeps(s: State, c: ConnId, h: Handler, at: map<CmdId, Place>)
    requires JobsOk(s) && OwnedOk(s) && ClosingsOk(s) && Locates(s, at)
    requires Plain(h.pc) && (c in s.handlers ==> Plain(s.handlers[c].pc))
    ensures var s' := Move(s, c, h); JobsOk(s') && OwnedOk(s') && ClosingsOk(s') && Locates(s', at)
  {
    var s' := Move(s, c, h);
    MoveFrames(s, c, h);
    JobsFrame(s, s');
    OwnedFrame(s, s');
    LocatedFrame(s, s', at);
  }

  lemma MoveRegistered(s: State, c: ConnId, h: Handler)
    requires RegisteredOk(s)
    requires c in s.handlers ==> h.server == s.handlers[c].server && (h.pc.Authed? <==> s.handlers[c].pc.Authed?)
    requires c in s.handlers && IsCurrent(s.hub, c) ==> Installed(h.pc)
    requires c !in s.handlers ==> h.pc.Authed?
    ensures RegisteredOk(Move(s, c, h))
  {
  }

  lemma MoveRows(s: State, c: ConnId, h: Handler)
    requires RowsOk(s) && RegisteredOk(s)
    requires c in s.handlers ==> h.server == s.handlers[c].server
    requires (BeforeCheck(h.pc) ==> !h.passed) && (Serving(h.pc) ==> h.passed)
    requires h.passed ==> (c in s.handlers && s.handlers[c].passed) || h.server in s.rows
    requires c !in s.handlers ==> !h.passed
    ensures RowsOk(Move(s, c, h))
  {
  }

  /** Every handler step that only moves its program counter keeps the invariant. */
  lemma MovedInv(s: State, c: ConnId, h: Handler)
    requires Inv(s) && Plain(h.pc) && (c in s.handlers ==> Plain(s.handlers[c].pc))
    requires c in s.handlers ==> h.server == s.handlers[c].server && (h.pc.Authed? <==> s.handlers[c].pc.Authed?)
    requires c in s.handlers && IsCurrent(s.hub, c) ==> Installed(h.pc)
    requires c !in s.handlers ==> h.pc.Authed? && !h.passed
    requires (BeforeCheck(h.pc) ==> !h.passed) && (Serving(h.pc) ==> h.passed)
    requires h.passed ==> (c in s.handlers && s.handlers[c].passed) || h.server in s.rows
    ensures Inv(Move(s, c, h))
  {
    OpenInv(s);
    var at :| Locates(s, at);
    MoveKeeps(s, c, h, at);
    MoveRegistered(s, c, h);
    MoveRows(s, c, h);
    CloseInv(Move(s, c, h), at);
  }

  lemma PassedOk(s: State, c: ConnId)
    requires Inv(s) && c in s.handlers
    ensures BeforeCheck(s.handlers[c].pc) ==> !s.handlers[c].passed
    ensures Serving(s.handlers[c].pc) ==> s.handlers[c].passed
  {
    OpenInv(s);
  }

  lemma CurrentIsInstalled(s: State, c: ConnId)
    requires Inv(s) && IsCurrent(s.hub, c)
    ensures c in s.handlers && Installed(s.handlers[c].pc) && s.handlers[c].server == s.hub.agents[c].server
    ensures !s.hub.agents[c].closed
  {
    OpenInv(s);
  }

  lemma CheckKeeps(s: State, c: ConnId, up: bool)
    requires Inv(s)
    ensures Inv(DoCheck(s, c, up))
  {
    if At(s, c, Checking) {
      PassedOk(s, c);
      var h := s.handlers[c];
      MovedInv(s, c, if up && h.server in s.rows then Handler(h.server, Reading, true) else h.(pc := Leaving));
    }
  }

  lemma ReceiveKeeps(s: State, c: ConnId, m: Msg)
    requires Inv(s)
    ensures Inv(DoReceive(s, c, m))
  {
    if At(s, c, Reading) {
      PassedOk(s, c);
      MovedInv(s, c, s.handlers[c].(pc := Finishing(m)));
    }
  }

  lemma ReadErrorKeeps(s: State, c: ConnId)
    requires Inv(s) && At(s, c, Reading)
    ensures Inv(Go(s, c, Leaving))
  {
    PassedOk(s, c);
    MovedInv(s, c, s.handlers[c].(pc := Leaving));
  }

  lemma FinishLookupKeeps(s: State, c: ConnId)
    requires Inv(s)
    ensures Inv(DoFinishLookup(s, c))
  {
    if c in s.handlers && s.handlers[c].pc.Finishing? {
      PassedOk(s, c);
      var h := s.handlers[c];
      match Current(s.hub, h.server)
      case Some(found) => MovedInv(s, c, h.(pc := Holding(h.pc.msg, found)));
      case None => MovedInv(s, c, h.(pc := Reading));
    }
  }

  lemma ArriveKeeps(s: State, c: ConnId, v: ServerId)
    requires Inv(s)
    ensures Inv(DoArrive(s, c, v))
  {
    if c !in s.handlers && v in s.rows {
      MovedInv(s, c, Handler(v, Authed, false));
    }
  }

  // ----- steps outside hub and handlers -----

  /** Rows, deletions without a closer, and senders change; nothing a connection depends on does. */
  lemma OutsideInv(s: State, s': State)
    requires Inv(s) && s'.hub == s.hub && s'.handlers == s.handlers
    requires s'.reports == s.reports && s'.closings == s.closings
    requires forall k :: JobOf(s', k) == JobOf(s, k)
    requires forall id :: WasSent(s', id) == WasSent(s, id)
    requires RowsOk(s')
    ensures Inv(s')
  {
    OpenInv(s);
    var at :| Locates(s, at);
    JobsFrame(s, s');
    OwnedFrame(s, s');
    forall id, p ensures HeldAt(s', id, p) == HeldAt(s, id, p) {
    }
    LocatedFrame(s, s', at);
    assert RegisteredOk(s') && ClosingsOk(s');
    CloseInv(s', at);
  }

  lemma CreateRowKeeps(s: State, v: ServerId)
    requires Inv(s) && v !in s.used
    ensures Inv(s.(rows := s.rows + {v}, used := s.used + {v}))
  {
    OpenInv(s);
    OutsideInv(s, s.(rows := s.rows + {v}, used := s.used + {v}));
  }

  lemma DeleteRowKeeps(s: State, v: ServerId)
    requires Inv(s)
    ensures Inv(DoDeleteRow(s, v))
  {
    if v in s.rows && v !in s.deleters {
      OpenInv(s);
      OutsideInv(s, DoDeleteRow(s, v));
    }
  }

  lemma SenderKeeps(s: State, id: CmdId, r: Sender)
    requires Inv(s) && !r.pc.Sent? && !WasSent(s, id)
    ensures Inv(s.(senders := s.senders[id := r]))
  {
    OpenInv(s);
    OutsideInv(s, s.(senders := s.senders[id := r]));
  }

  lemma SendLookupKeeps(s: State, id: CmdId)
    requires Inv(s)
    ensures Inv(DoSendLookup(s, id))
  {
    if id in s.senders && s.senders[id].pc == Looking {
      match Current(s.hub, s.senders[id].server)
      case Some(c) => SenderKeeps(s, id, s.senders[id].(pc := HoldingConn(c)));
      case None => SenderKeeps(s, id, s.senders[id].(pc := SendFailed));
    }
  }

  // ----- a connection leaves the map and gets a closer -----

  /** `k` starts closing `prev`, which was current; no other connection or closer is affected. */
  ghost predicate HandsOver(s: State, s': State, k: Closer, prev: ConnId) {
    && IsCurrent(s.hub, prev) && !s.hub.agents[prev].closed
    && (forall t | t in s.hub.agents :: t in s'.hub.agents && s'.hub.agents[t] == s.hub.agents[t])
    && (forall t | t in s.hub.agents :: IsCurrent(s'.hub, t) <==> IsCurrent(s.hub, t) && t != prev)
    && (forall t | t in s'.hub.agents && t !in s.hub.agents ::
          IsCurrent(s'.hub, t) && !s'.hub.agents[t].closed && t !in s.closings)
    && JobOf(s, k) == None && JobOf(s', k) == Some(Drain(prev))
    && (forall x | x != k :: JobOf(s', x) == JobOf(s, x))
    && s'.closings == s.closings + [prev]
  }

  lemma HandOverJobs(s: State, s': State, k: Closer, prev: ConnId)
    requires JobsOk(s) && HandsOver(s, s', k, prev)
    ensures JobsOk(s')
  {
    forall x | JobOf(s', x).Some? ensures JobOk(s', JobOf(s', x).value)
      ensures x != k ==> JobOf(s', x).value.target != prev
    {
      if x != k {
        assert JobOf(s, x).Some? && JobOk(s, JobOf(s, x).value);
      }
    }
    forall a, b | JobOf(s', a).Some? && JobOf(s', b).Some?
                  && JobOf(s', a).value.target == JobOf(s', b).value.target
      ensures a == b
    {
      if a != k && b != k {
        assert JobOf(s, a).Some? && JobOf(s, b).Some?;
      }
    }
  }

  lemma HandOverOwned(s: State, s': State, k: Closer, prev: ConnId)
    requires OwnedOk(s) && HandsOver(s, s', k, prev)
    ensures forall c | c in s.hub.agents && !s'.hub.agents[c].closed && !IsCurrent(s'.hub, c) ::
              exists x :: JobOf(s', x) == Some(Drain(c))
  {
    forall c | c in s.hub.agents && !s'.hub.agents[c].closed && !IsCurrent(s'.hub, c)
      ensures exists x :: JobOf(s', x) == Some(Drain(c))
    {
      if c == prev {
        assert JobOf(s', k) == Some(Drain(c));
      } else {
        var x :| JobOf(s, x) == Some(Drain(c));
        assert JobOf(s', x) == Some(Drain(c));
      }
    }
  }

  lemma HandOverClosings(s: State, s': State, k: Closer, prev: ConnId)
    requires ClosingsOk(s) && HandsOver(s, s', k, prev)
    ensures ClosingsOk(s')
  {
    assert prev !in s.closings;
    forall c | c in s'.hub.agents ensures c in s'.closings <==> !IsCurrent(s'.hub, c) {
    }
  }

  lemma TakeHoldings(s: State, s': State, k: Closer, prev: ConnId)
    requires HandsOver(s, s', k, prev) && s'.senders == s.senders && s'.reports == s.reports
    requires forall t | t in s'.hub.agents && t !in s.hub.agents :: s'.hub.agents[t].pending == {}
    requires forall c, m :: At(s', c, Claimed(m)) <==> At(s, c, Claimed(m))
    ensures SameHoldings(s, s')
  {
    forall id, p ensures HeldAt(s', id, p) == HeldAt(s, id, p) {
      match p
      case DrainedBy(x) => assert x != k ==> JobOf(s', x) == JobOf(s, x);
      case ClaimedBy(c) =>
        if c in s.handlers && s.handlers[c].pc.Claimed? {
          assert At(s, c, Claimed(s.handlers[c].pc.msg));
        }
        if c in s'.handlers && s'.handlers[c].pc.Claimed? {
          assert At(s', c, Claimed(s'.handlers[c].pc.msg));
        }
      case _ =>
    }
  }

  lemma HandOverInv(s: State, s': State, k: Closer, prev: ConnId)
    requires Inv(s) && HandsOver(s, s', k, prev) && s'.senders == s.senders && s'.reports == s.reports
    requires forall t | t in s'.hub.agents && t !in s.hub.agents :: s'.hub.agents[t].pending == {}
    requires forall c, m :: At(s', c, Claimed(m)) <==> At(s, c, Claimed(m))
    requires RegisteredOk(s') && RowsOk(s')
    ensures Inv(s')
  {
    OpenInv(s);
    var at :| Locates(s, at);
    HandOverJobs(s, s', k, prev);
    HandOverOwned(s, s', k, prev);
    HandOverClosings(s, s', k, prev);
    TakeHoldings(s, s', k, prev);
    LocatedFrame(s, s', at);
    assert OwnedOk(s');
    CloseInv(s', at);
  }

  lemma UnregisterHandsOver(s: State, c: ConnId)
    requires RegisteredOk(s) && At(s, c, Leaving) && Current(s.hub, s.handlers[c].server) == Some(c)
    ensures HandsOver(s, DoUnregister(s, c), ByHandler(c), c)
  {
    var s' := DoUnregister(s, c);
    forall x | x != ByHandler(c) ensures JobOf(s', x) == JobOf(s, x) {
    }
  }

  lemma UnregisterRegistered(s: State, c: ConnId)
    requires RegisteredOk(s) && At(s, c, Leaving) && Current(s.hub, s.handlers[c].server) == Some(c)
    ensures RegisteredOk(DoUnregister(s, c))
  {
  }

  lemma UnregisterRows(s: State, c: ConnId)
    requires RowsOk(s) && At(s, c, Leaving) && Current(s.hub, s.handlers[c].server) == Some(c)
    ensures RowsOk(DoUnregister(s, c))
  {
  }

  lemma UnregisterOwn(s: State, c: ConnId)
    requires Inv(s) && At(s, c, Leaving) && Current(s.hub, s.handlers[c].server) == Some(c)
    ensures Inv(DoUnregister(s, c))
  {
    assert Holds(Registered, s) && Holds(Rows, s);
    UnregisterHandsOver(s, c);
    UnregisterRegistered(s, c);
    UnregisterRows(s, c);
    HandOverInv(s, DoUnregister(s, c), ByHandler(c), c);
  }

  lemma UnregisterKeeps(s: State, c: ConnId)
    requires Inv(s)
    ensures Inv(DoUnregister(s, c))
  {
    if At(s, c, Leaving) {
      if Current(s.hub, s.handlers[c].server) == Some(c) {
        UnregisterOwn(s, c);
      } else {
        if IsCurrent(s.hub, c) {
          CurrentIsInstalled(s, c);
        }
        MovedInv(s, c, s.handlers[c].(pc := Gone));
      }
    }
  }

  lemma DisconnectHandsOver(s: State, v: ServerId)
    requires RegisteredOk(s) && v in s.deleters && s.deleters[v] == RowRemoved && v in s.hub.conns
    ensures HandsOver(s, DoDisconnect(s, v), ByDeleter(v), s.hub.conns[v])
  {
    var s' := DoDisconnect(s, v);
    forall x | x != ByDeleter(v) ensures JobOf(s', x) == JobOf(s, x) {
    }
  }

  lemma DisconnectRegistered(s: State, v: ServerId)
    requires RegisteredOk(s) && v in s.deleters && s.deleters[v] == RowRemoved
    ensures RegisteredOk(DoDisconnect(s, v))
  {
  }

  lemma DisconnectRows(s: State, v: ServerId)
    requires RowsOk(s) && v in s.deleters && s.deleters[v] == RowRemoved
    ensures RowsOk(DoDisconnect(s, v))
  {
  }

  lemma DisconnectKeeps(s: State, v: ServerId)
    requires Inv(s)
    ensures Inv(DoDisconnect(s, v))
  {
    if v in s.deleters && s.deleters[v] == RowRemoved {
      assert Holds(Registered, s) && Holds(Rows, s);
      DisconnectRegistered(s, v);
      DisconnectRows(s, v);
      if v in s.hub.conns {
        DisconnectHandsOver(s, v);
        HandOverInv(s, DoDisconnect(s, v), ByDeleter(v), s.hub.conns[v]);
      } else {
        OutsideInv(s, DoDisconnect(s, v));
      }
    }
  }

  lemma RegisterHandsOver(s: State, c: ConnId, prev: ConnId)
    requires RegisteredOk(s) && ClosingsOk(s) && At(s, c, Authed)
    requires Current(s.hub, s.handlers[c].server) == Some(prev)
    ensures HandsOver(s, DoRegister(s, c), ByHandler(c), prev)
  {
    var s' := DoRegister(s, c);
    assert c !in s.hub.agents && c !in s.closings;
    forall x | x != ByHandler(c) ensures JobOf(s', x) == JobOf(s, x) {
    }
  }

  lemma RegisterRegistered(s: State, c: ConnId)
    requires RegisteredOk(s) && At(s, c, Authed)
    ensures RegisteredOk(DoRegister(s, c))
  {
  }

  lemma RegisterRows(s: State, c: ConnId)
    requires RowsOk(s) && At(s, c, Authed)
    ensures RowsOk(DoRegister(s, c))
  {
  }

  lemma RegisterKeeps(s: State, c: ConnId)
    requires Inv(s)
    ensures Inv(DoRegister(s, c))
  {
    if At(s, c, Authed) {
      assert Holds(Registered, s) && Holds(Rows, s) && Holds(Closings, s);
      RegisterRegistered(s, c);
      RegisterRows(s, c);
      match Current(s.hub, s.handlers[c].server)
      case Some(prev) => NextRegisterInv(s, c, prev);
      case None => FirstRegisterInv(s, c);
    }
  }

  /** A later connection of a server: the previous one is handed to a closer. */
  lemma NextRegisterInv(s: State, c: ConnId, prev: ConnId)
    requires Inv(s) && At(s, c, Authed) && Current(s.hub, s.handlers[c].server) == Some(prev)
    requires RegisteredOk(DoRegister(s, c)) && RowsOk(DoRegister(s, c))
    ensures Inv(DoRegister(s, c))
  {
    assert Holds(Registered, s) && Holds(Closings, s);
    RegisterHandsOver(s, c, prev);
    RegisterSettlesNothing(s, DoRegister(s, c), c, prev);
    HandOverInv(s, DoRegister(s, c), ByHandler(c), prev);
  }

  lemma RegisterSettlesNothing(s: State, s': State, c: ConnId, prev: ConnId)
    requires At(s, c, Authed) && Current(s.hub, s.handlers[c].server) == Some(prev) && s' == DoRegister(s, c)
    ensures s'.senders == s.senders && s'.reports == s.reports
    ensures forall t | t in s'.hub.agents && t !in s.hub.agents :: s'.hub.agents[t].pending == {}
    ensures forall x, m :: At(s', x, Claimed(m)) <==> At(s, x, Claimed(m))
  {
  }

  /** The first connection of a server: nobody has to be closed. */
  lemma FirstRegisterInv(s: State, c: ConnId)
    requires Inv(s) && At(s, c, Authed) && Current(s.hub, s.handlers[c].server) == None
    requires RegisteredOk(DoRegister(s, c)) && RowsOk(DoRegister(s, c))
    ensures Inv(DoRegister(s, c))
  {
    OpenInv(s);
    var s' := DoRegister(s, c);
    var at :| Locates(s, at);
    forall t | t in s.hub.agents
      ensures IsCurrent(s'.hub, t) == IsCurrent(s.hub, t) && s'.hub.agents[t] == s.hub.agents[t]
    {
    }
    FirstRegisterClosing(s, s', c);
    FirstRegisterHoldings(s, s', c);
    LocatedFrame(s, s', at);
    CloseInv(s', at);
  }

  ghost predicate Joins(s: State, s': State, c: ConnId) {
    && c !in s.hub.agents && c in s'.hub.agents && !s'.hub.agents[c].closed && s'.hub.agents[c].pending == {}
    && s'.hub.agents == s.hub.agents[c := s'.hub.agents[c]]
    && IsCurrent(s'.hub, c)
    && (forall t | t in s.hub.agents :: IsCurrent(s'.hub, t) == IsCurrent(s.hub, t))
    && (forall k :: JobOf(s', k) == JobOf(s, k))
    && s'.closings == s.closings
  }

  lemma FirstRegisterClosing(s: State, s': State, c: ConnId)
    requires RegisteredOk(s) && JobsOk(s) && OwnedOk(s) && ClosingsOk(s) && At(s, c, Authed)
    requires Current(s.hub, s.handlers[c].server) == None && s' == DoRegister(s, c)
    ensures JobsOk(s') && OwnedOk(s') && ClosingsOk(s')
  {
    FirstRegisterJoins(s, s', c);
    JoinKeeps(s, s', c);
  }

  lemma FirstRegisterJoins(s: State, s': State, c: ConnId)
    requires RegisteredOk(s) && At(s, c, Authed)
    requires Current(s.hub, s.handlers[c].server) == None && s' == DoRegister(s, c)
    ensures Joins(s, s', c)
  {
    forall k ensures JobOf(s', k) == JobOf(s, k) {
    }
  }

  lemma JoinKeeps(s: State, s': State, c: ConnId)
    requires JobsOk(s) && OwnedOk(s) && ClosingsOk(s) && Joins(s, s', c)
    ensures JobsOk(s') && OwnedOk(s') && ClosingsOk(s')
  {
    forall k | JobOf(s', k).Some? ensures JobOk(s', JobOf(s', k).value) {
      assert JobOf(s, k).Some?;
    }
    forall a, b | JobOf(s', a).Some? && JobOf(s', b).Some?
                  && JobOf(s', a).value.target == JobOf(s', b).value.target
      ensures a == b
    {
      assert JobOf(s, a).Some? && JobOf(s, b).Some?;
    }
    forall x | x in s'.hub.agents && !s'.hub.agents[x].closed && !IsCurrent(s'.hub, x)
      ensures exists k :: JobOf(s', k) == Some(Drain(x))
    {
      var k :| JobOf(s, k) == Some(Drain(x));
      assert JobOf(s', k) == Some(Drain(x));
    }
    forall x | x in s'.hub.agents ensures x in s'.closings <==> !IsCurrent(s'.hub, x) {
    }
  }

  lemma FirstRegisterHoldings(s: State, s': State, c: ConnId)
    requires RegisteredOk(s) && At(s, c, Authed)
    requires Current(s.hub, s.handlers[c].server) == None && s' == DoRegister(s, c)
    ensures SameHoldings(s, s')
  {
    forall k ensures JobOf(s', k) == JobOf(s, k) {
    }
    forall id, p ensures HeldAt(s', id, p) == HeldAt(s, id, p) {
      if p.DrainedBy? {
        assert JobOf(s', p.closer) == JobOf(s, p.closer);
      }
    }
  }

  // ----- closing -----

  lemma Relocate(s: State, s': State, at: map<CmdId, Place>, moved: set<CmdId>, to: Place)
      returns (at': map<CmdId, Place>)
    requires Locates(s, at) && (forall id | id in moved :: id in at)
    requires forall id, p | id in moved :: HeldAt(s', id, p) <==> p == to
    requires forall id, p | id !in moved :: HeldAt(s', id, p) == HeldAt(s, id, p)
    requires forall id :: WasSent(s', id) == WasSent(s, id)
    ensures Locates(s', at')
  {
    at' := map id | id in at :: if id in moved then to else at[id];
    forall id, p | HeldAt(s', id, p) ensures id in at' && at'[id] == p {
      if id !in moved {
        assert HeldAt(s, id, p);
      }
    }
    forall id | id in at' ensures HeldAt(s', id, at'[id]) {
      if id !in moved {
        assert HeldAt(s, id, at[id]);
      }
    }
    forall id ensures id in at' <==> WasSent(s', id) {
      assert WasSent(s', id) == WasSent(s, id);
    }
  }

  /** `k` goes on with its job on the same connection; no other closer changes. */
  ghost predicate Advances(s: State, s': State, k: Closer, job: Job) {
    && JobOf(s, k).Some? && JobOf(s, k).value.target == job.target && JobOf(s', k) == Some(job)
    && (forall x | x != k :: JobOf(s', x) == JobOf(s, x))
    && s'.hub.conns == s.hub.conns && s'.hub.agents.Keys == s.hub.agents.Keys
    && (forall t | t in s.hub.agents :: s'.hub.agents[t].server == s.hub.agents[t].server)
    && (forall t | t in s.hub.agents && t != job.target :: s'.hub.agents[t] == s.hub.agents[t])
    && s'.closings == s.closings && s'.senders == s.senders
    && s'.rows == s.rows && s'.used == s.used
  }

  lemma SetJobAdvances(s: State, k: Closer, job: Job)
    requires JobOf(s, k).Some? && JobOf(s, k).value.target == job.target
    ensures Advances(s, SetJob(s, k, job), k, job)
    ensures forall c, m :: At(SetJob(s, k, job), c, Claimed(m)) <==> At(s, c, Claimed(m))
  {
    var s' := SetJob(s, k, job);
    forall x | x != k ensures JobOf(s', x) == JobOf(s, x) {
    }
  }

  lemma SetJobRegistered(s: State, k: Closer, job: Job)
    requires RegisteredOk(s) && RowsOk(s) && JobOf(s, k).Some?
    ensures RegisteredOk(SetJob(s, k, job)) && RowsOk(SetJob(s, k, job))
  {
  }

  lemma AdvanceClosing(s: State, s': State, k: Closer, job: Job)
    requires JobsOk(s) && OwnedOk(s) && ClosingsOk(s) && Advances(s, s', k, job)
    requires job.Reporting? && s'.hub.agents[job.target].closed && s'.hub.agents[job.target].pending == {}
    ensures JobsOk(s') && OwnedOk(s') && ClosingsOk(s')
  {
    forall t | t in s.hub.agents ensures IsCurrent(s'.hub, t) == IsCurrent(s.hub, t) {
    }
    AdvanceJobs(s, s', k, job);
    forall c | c in s'.hub.agents && !s'.hub.agents[c].closed && !IsCurrent(s'.hub, c)
      ensures exists x :: JobOf(s', x) == Some(Drain(c))
    {
      var x :| JobOf(s, x) == Some(Drain(c));
      assert JobOf(s', x) == Some(Drain(c));
    }
  }

  lemma AdvanceJobs(s: State, s': State, k: Closer, job: Job)
    requires JobsOk(s) && Advances(s, s', k, job)
    requires job.Reporting? && s'.hub.agents[job.target].closed
    ensures JobsOk(s')
  {
    forall x | JobOf(s', x).Some? ensures JobOk(s', JobOf(s', x).value) {
      assert JobOf(s, x).Some? && JobOk(s, JobOf(s, x).value) && JobOf(s, k).Some?;
      assert x != k ==> JobOf(s, x).value.target != job.target;
    }
    forall a, b | JobOf(s', a).Some? && JobOf(s', b).Some?
                  && JobOf(s', a).value.target == JobOf(s', b).value.target
      ensures a == b
    {
      assert JobOf(s, a).Some? && JobOf(s, b).Some?;
    }
  }

  lemma DrainKeeps(s: State, k: Closer)
    requires Inv(s)
    ensures Inv(DoDrain(s, k))
  {
    if JobOf(s, k).Some? && JobOf(s, k).value.Drain? && JobOf(s, k).value.target in s.hub.agents {
      DrainInv(s, k, JobOf(s, k).value.target);
    }
  }

  lemma DrainClosing(s: State, k: Closer, t: ConnId)
    requires JobsOk(s) && OwnedOk(s) && ClosingsOk(s) && JobOf(s, k) == Some(Drain(t)) && t in s.hub.agents
    ensures JobsOk(DoDrain(s, k)) && OwnedOk(DoDrain(s, k)) && ClosingsOk(DoDrain(s, k))
  {
    var job := Reporting(t, s.hub.agents[t].pending);
    SetJobAdvances(s, k, job);
    assert Advances(s, DoDrain(s, k), k, job);
    AdvanceClosing(s, DoDrain(s, k), k, job);
  }

  lemma DrainInv(s: State, k: Closer, t: ConnId)
    requires Inv(s) && JobOf(s, k) == Some(Drain(t)) && t in s.hub.agents
    ensures Inv(DoDrain(s, k))
  {
    OpenInv(s);
    var at :| Locates(s, at);
    DrainClosing(s, k, t);
    DrainRegistered(s, k, t);
    var at' := DrainLocates(s, DoDrain(s, k), k, t, at);
    CloseInv(DoDrain(s, k), at');
  }

  lemma DrainRegistered(s: State, k: Closer, t: ConnId)
    requires RegisteredOk(s) && RowsOk(s) && JobsOk(s) && JobOf(s, k) == Some(Drain(t)) && t in s.hub.agents
    ensures RegisteredOk(DoDrain(s, k)) && RowsOk(DoDrain(s, k))
  {
    assert JobOk(s, Drain(t));
    SetJobRegistered(s, k, Reporting(t, s.hub.agents[t].pending));
    DrainConnRegistered(SetJob(s, k, Reporting(t, s.hub.agents[t].pending)), t);
  }

  lemma DrainConnRegistered(s: State, t: ConnId)
    requires RegisteredOk(s) && RowsOk(s) && t in s.hub.agents && !IsCurrent(s.hub, t)
    ensures RegisteredOk(s.(hub := DrainConn(s.hub, t))) && RowsOk(s.(hub := DrainConn(s.hub, t)))
  {
  }

  lemma DrainLocates(s: State, s': State, k: Closer, t: ConnId, at: map<CmdId, Place>) returns (at': map<CmdId, Place>)
    requires Locates(s, at) && JobOf(s, k) == Some(Drain(t)) && t in s.hub.agents && s' == DoDrain(s, k)
    ensures Locates(s', at')
  {
    var ids := s.hub.agents[t].pending;
    SetJobAdvances(s, k, Reporting(t, ids));
    var mid := SetJob(s, k, Reporting(t, ids));
    assert forall x :: JobOf(s', x) == JobOf(mid, x);
    forall id | id in ids ensures id in at && at[id] == PendingOn(t) {
      assert HeldAt(s, id, PendingOn(t));
    }
    forall id, p | id in ids ensures HeldAt(s', id, p) <==> p == DrainedBy(k) {
      DrainMoves(s, s', k, t, at, id, p);
    }
    forall id, p | id !in ids ensures HeldAt(s', id, p) == HeldAt(s, id, p) {
      ClaimsSame(s, s', p, id);
    }
    at' := Relocate(s, s', at, ids, DrainedBy(k));
  }

  lemma ClaimsSame(s: State, s': State, p: Place, id: CmdId)
    requires forall c, m :: At(s', c, Claimed(m)) <==> At(s, c, Claimed(m))
    ensures p.ClaimedBy? ==> HeldAt(s', id, p) == HeldAt(s, id, p)
  {
    if p.ClaimedBy? {
      var c := p.conn;
      if c in s.handlers && s.handlers[c].pc.Claimed? {
        assert At(s, c, Claimed(s.handlers[c].pc.msg));
      }
      if c in s'.handlers && s'.handlers[c].pc.Claimed? {
        assert At(s', c, Claimed(s'.handlers[c].pc.msg));
      }
    }
  }

  lemma DrainMoves(s: State, s': State, k: Closer, t: ConnId, at: map<CmdId, Place>, id: CmdId, p: Place)
    requires Locates(s, at) && JobOf(s, k) == Some(Drain(t)) && t in s.hub.agents && s' == DoDrain(s, k)
    requires id in s.hub.agents[t].pending
    requires Advances(s, SetJob(s, k, Reporting(t, s.hub.agents[t].pending)), k, Reporting(t, s.hub.agents[t].pending))
    requires forall x :: JobOf(s', x) == JobOf(SetJob(s, k, Reporting(t, s.hub.agents[t].pending)), x)
    requires forall c, m :: At(s', c, Claimed(m)) <==> At(s, c, Claimed(m))
    ensures HeldAt(s', id, p) <==> p == DrainedBy(k)
  {
    assert HeldAt(s, id, PendingOn(t));
    ClaimsSame(s, s', p, id);
    if HeldAt(s', id, p) && p != DrainedBy(k) {
      assert HeldAt(s, id, p);
    }
  }

  lemma ReportKeeps(s: State, k: Closer, id: CmdId)
    requires Inv(s)
    ensures Inv(DoReport(s, k, id))
  {
    if JobOf(s, k).Some? && JobOf(s, k).value.Reporting? && id in JobOf(s, k).value.ids {
      ReportInv(s, k, JobOf(s, k).value.target, JobOf(s, k).value.ids, id);
    }
  }

  lemma ReportInv(s: State, k: Closer, t: ConnId, ids: set<CmdId>, id: CmdId)
    requires Inv(s) && JobOf(s, k) == Some(Reporting(t, ids)) && id in ids
    ensures Inv(DoReport(s, k, id))
  {
    OpenInv(s);
    var at :| Locates(s, at);
    ReportClosing(s, k, t, ids, id);
    SetJobRegistered(s, k, Reporting(t, ids - {id}));
    ReportsRegistered(SetJob(s, k, Reporting(t, ids - {id})), s.reports + [Interrupted(id)]);
    var at' := ReportLocates(s, DoReport(s, k, id), k, t, ids, id, at);
    CloseInv(DoReport(s, k, id), at');
  }

  lemma ReportsRegistered(s: State, reports: seq<Report>)
    requires RegisteredOk(s) && RowsOk(s)
    ensures RegisteredOk(s.(reports := reports)) && RowsOk(s.(reports := reports))
  {
  }

  lemma ReportClosing(s: State, k: Closer, t: ConnId, ids: set<CmdId>, id: CmdId)
    requires JobsOk(s) && OwnedOk(s) && ClosingsOk(s) && JobOf(s, k) == Some(Reporting(t, ids)) && id in ids
    ensures JobsOk(DoReport(s, k, id)) && OwnedOk(DoReport(s, k, id)) && ClosingsOk(DoReport(s, k, id))
  {
    var job := Reporting(t, ids - {id});
    assert JobOk(s, JobOf(s, k).value);
    SetJobAdvances(s, k, job);
    assert Advances(s, DoReport(s, k, id), k, job);
    AdvanceClosing(s, DoReport(s, k, id), k, job);
  }

  lemma ReportLocates(s: State, s': State, k: Closer, t: ConnId, ids: set<CmdId>, id: CmdId, at: map<CmdId, Place>)
    returns (at': map<CmdId, Place>)
    requires Locates(s, at) && JobOf(s, k) == Some(Reporting(t, ids)) && id in ids && s' == DoReport(s, k, id)
    ensures Locates(s', at')
  {
    SetJobAdvances(s, k, Reporting(t, ids - {id}));
    var mid := SetJob(s, k, Reporting(t, ids - {id}));
    assert forall x :: JobOf(s', x) == JobOf(mid, x);
    assert HeldAt(s, id, DrainedBy(k));
    forall p ensures HeldAt(s', id, p) <==> p == ReportedAt(|s.reports|) {
      ClaimsSame(s, s', p, id);
      if HeldAt(s', id, p) && p != ReportedAt(|s.reports|) {
        assert HeldAt(s, id, p);
      }
    }
    forall x, p | x != id ensures HeldAt(s', x, p) == HeldAt(s, x, p) {
      ClaimsSame(s, s', p, x);
    }
    at' := Relocate(s, s', at, {id}, ReportedAt(|s.reports|));
  }

  lemma EndKeeps(s: State, k: Closer)
    requires Inv(s)
    ensures Inv(DoEnd(s, k))
  {
    if JobOf(s, k).Some? && JobOf(s, k).value.Reporting? && JobOf(s, k).value.ids == {} {
      EndInv(s, k);
    }
  }

  lemma EndShape(s: State, k: Closer)
    requires JobOf(s, k).Some?
    ensures var s' := EndJob(s, k);
            && JobOf(s', k) == None && (forall x | x != k :: JobOf(s', x) == JobOf(s, x))
            && (forall c, m :: At(s', c, Claimed(m)) <==> At(s, c, Claimed(m)))
            && s'.hub == s.hub && s'.closings == s.closings && s'.reports == s.reports && s'.senders == s.senders
  {
    var s' := EndJob(s, k);
    forall x | x != k ensures JobOf(s', x) == JobOf(s, x) {
    }
  }

  lemma EndRegistered(s: State, k: Closer)
    requires RegisteredOk(s) && RowsOk(s) && JobOf(s, k).Some?
    ensures RegisteredOk(EndJob(s, k)) && RowsOk(EndJob(s, k))
  {
  }

  lemma EndClosing(s: State, s': State, k: Closer)
    requires JobsOk(s) && OwnedOk(s) && JobOf(s, k).Some? && JobOf(s, k).value.Reporting?
    requires s'.hub == s.hub && JobOf(s', k) == None && (forall x | x != k :: JobOf(s', x) == JobOf(s, x))
    ensures JobsOk(s') && OwnedOk(s')
  {
    forall x | JobOf(s', x).Some? ensures JobOk(s', JobOf(s', x).value) {
      assert JobOf(s, x).Some?;
    }
    forall a, b | JobOf(s', a).Some? && JobOf(s', b).Some?
                  && JobOf(s', a).value.target == JobOf(s', b).value.target
      ensures a == b
    {
      assert JobOf(s, a).Some? && JobOf(s, b).Some?;
    }
    forall c | c in s'.hub.agents && !s'.hub.agents[c].closed && !IsCurrent(s'.hub, c)
      ensures exists x :: JobOf(s', x) == Some(Drain(c))
    {
      var x :| JobOf(s, x) == Some(Drain(c));
      assert JobOf(s', x) == Some(Drain(c));
    }
  }

  lemma EndInv(s: State, k: Closer)
    requires Inv(s) && JobOf(s, k).Some? && JobOf(s, k).value.Reporting? && JobOf(s, k).value.ids == {}
    ensures Inv(EndJob(s, k))
  {
    OpenInv(s);
    var at :| Locates(s, at);
    var s' := EndJob(s, k);
    EndShape(s, k);
    EndRegistered(s, k);
    EndClosing(s, s', k);
    EndHoldings(s, s', k);
    LocatedFrame(s, s', at);
    CloseInv(s', at);
  }

  lemma EndHoldings(s: State, s': State, k: Closer)
    requires JobOf(s, k).Some? && JobOf(s, k).value.Reporting? && JobOf(s, k).value.ids == {}
    requires JobOf(s', k) == None && (forall x | x != k :: JobOf(s', x) == JobOf(s, x))
    requires forall c, m :: At(s', c, Claimed(m)) <==> At(s, c, Claimed(m))
    requires s'.hub == s.hub && s'.reports == s.reports && s'.senders == s.senders
    ensures SameHoldings(s, s')
  {
    forall id, p ensures HeldAt(s', id, p) == HeldAt(s, id, p) {
      ClaimsSame(s, s', p, id);
    }
  }

  // ----- pending sets -----

  /** One pending set changes on an open connection; the closers and the map stay. */
  ghost predicate Repends(s: State, s': State, c: ConnId) {
    && c in s.hub.agents && !s.hub.agents[c].closed
    && s'.hub.conns == s.hub.conns
    && (exists pending :: s'.hub.agents == s.hub.agents[c := s.hub.agents[c].(pending := pending)])
    && (forall k :: JobOf(s', k) == JobOf(s, k)) && s'.closings == s.closings
  }

  lemma RependClosing(s: State, s': State, c: ConnId)
    requires JobsOk(s) && OwnedOk(s) && ClosingsOk(s) && Repends(s, s', c)
    ensures JobsOk(s') && OwnedOk(s') && ClosingsOk(s')
  {
    forall t | t in s.hub.agents ensures IsCurrent(s'.hub, t) == IsCurrent(s.hub, t) {
    }
    forall x | JobOf(s', x).Some? ensures JobOk(s', JobOf(s', x).value) {
      assert JobOf(s, x).Some?;
    }
    forall a, b | JobOf(s', a).Some? && JobOf(s', b).Some?
                  && JobOf(s', a).value.target == JobOf(s', b).value.target
      ensures a == b
    {
      assert JobOf(s, a).Some? && JobOf(s, b).Some?;
    }
    forall t | t in s'.hub.agents && !s'.hub.agents[t].closed && !IsCurrent(s'.hub, t)
      ensures exists x :: JobOf(s', x) == Some(Drain(t))
    {
      var x :| JobOf(s, x) == Some(Drain(t));
      assert JobOf(s', x) == Some(Drain(t));
    }
  }

  lemma RependRegistered(s: State, c: ConnId, pending: set<CmdId>)
    requires RegisteredOk(s) && RowsOk(s) && c in s.hub.agents
    ensures var s' := s.(hub := s.hub.(agents := s.hub.agents[c := s.hub.agents[c].(pending := pending)]));
            RegisteredOk(s') && RowsOk(s')
  {
  }

  lemma ClaimRegistered(s: State, c: ConnId, m: Msg)
    requires RegisteredOk(s) && RowsOk(s) && c in s.handlers && Serving(s.handlers[c].pc)
    ensures RegisteredOk(Go(s, c, Claimed(m))) && RowsOk(Go(s, c, Claimed(m)))
    ensures RegisteredOk(Go(s, c, Reading)) && RowsOk(Go(s, c, Reading))
  {
    MoveRegistered(s, c, s.handlers[c].(pc := Claimed(m)));
    MoveRows(s, c, s.handlers[c].(pc := Claimed(m)));
    MoveRegistered(s, c, s.handlers[c].(pc := Reading));
    MoveRows(s, c, s.handlers[c].(pc := Reading));
  }

  lemma FinishCommitKeeps(s: State, c: ConnId)
    requires Inv(s)
    ensures Inv(DoFinishCommit(s, c))
  {
    if c in s.handlers && s.handlers[c].pc.Holding? {
      var m, found := s.handlers[c].pc.msg, s.handlers[c].pc.found;
      if found in s.hub.agents && m.id in s.hub.agents[found].pending {
        ClaimInv(s, c, m, found);
      } else {
        PassedOk(s, c);
        MovedInv(s, c, s.handlers[c].(pc := Reading));
      }
    }
  }

  lemma ClaimInv(s: State, c: ConnId, m: Msg, found: ConnId)
    requires Inv(s) && At(s, c, Holding(m, found)) && found in s.hub.agents && m.id in s.hub.agents[found].pending
    ensures Inv(DoFinishCommit(s, c))
  {
    OpenInv(s);
    var at :| Locates(s, at);
    var s' := DoFinishCommit(s, c);
    ClaimClosing(s, c, m, found);
    ClaimRegistered(s, c, m);
    RependRegistered(Go(s, c, Claimed(m)), found, s.hub.agents[found].pending - {m.id});
    var at' := ClaimLocates(s, s', c, m, found, at);
    CloseInv(s', at');
  }

  lemma ClaimClosing(s: State, c: ConnId, m: Msg, found: ConnId)
    requires JobsOk(s) && OwnedOk(s) && ClosingsOk(s)
    requires At(s, c, Holding(m, found)) && found in s.hub.agents && m.id in s.hub.agents[found].pending
    ensures var s' := DoFinishCommit(s, c); JobsOk(s') && OwnedOk(s') && ClosingsOk(s')
  {
    var s' := DoFinishCommit(s, c);
    forall k ensures JobOf(s', k) == JobOf(s, k) {
    }
    var pending := s.hub.agents[found].pending - {m.id};
    assert s'.hub.agents == s.hub.agents[found := s.hub.agents[found].(pending := pending)];
    RependClosing(s, s', found);
  }

  lemma ClaimLocates(s: State, s': State, c: ConnId, m: Msg, found: ConnId, at: map<CmdId, Place>)
    returns (at': map<CmdId, Place>)
    requires Locates(s, at) && s' == DoFinishCommit(s, c)
    requires At(s, c, Holding(m, found)) && found in s.hub.agents && m.id in s.hub.agents[found].pending
    ensures Locates(s', at')
  {
    forall k ensures JobOf(s', k) == JobOf(s, k) {
    }
    assert HeldAt(s, m.id, PendingOn(found));
    forall p ensures HeldAt(s', m.id, p) <==> p == ClaimedBy(c) {
      if HeldAt(s', m.id, p) && p != ClaimedBy(c) {
        assert HeldAt(s, m.id, p);
      }
    }
    forall x, p | x != m.id ensures HeldAt(s', x, p) == HeldAt(s, x, p) {
    }
    at' := Relocate(s, s', at, {m.id}, ClaimedBy(c));
  }

  lemma FireKeeps(s: State, c: ConnId)
    requires Inv(s)
    ensures Inv(DoFire(s, c))
  {
    if c in s.handlers && s.handlers[c].pc.Claimed? {
      FireInv(s, c, s.handlers[c].pc.msg);
    }
  }

  lemma FireInv(s: State, c: ConnId, m: Msg)
    requires Inv(s) && At(s, c, Claimed(m))
    ensures Inv(DoFire(s, c))
  {
    OpenInv(s);
    var at :| Locates(s, at);
    var s' := DoFire(s, c);
    FireJobs(s, c);
    JobsFrame(s, s');
    OwnedFrame(s, s');
    ClaimRegistered(s, c, m);
    ReportsRegistered(Go(s, c, Reading), s'.reports);
    var at' := FireLocates(s, s', c, m, at);
    CloseInv(s', at');
  }

  lemma FireJobs(s: State, c: ConnId)
    ensures DoFire(s, c).hub == s.hub && DoFire(s, c).closings == s.closings
    ensures forall k :: JobOf(DoFire(s, c), k) == JobOf(s, k)
  {
    forall k ensures JobOf(DoFire(s, c), k) == JobOf(s, k) {
    }
  }

  lemma FireLocates(s: State, s': State, c: ConnId, m: Msg, at: map<CmdId, Place>) returns (at': map<CmdId, Place>)
    requires Locates(s, at) && At(s, c, Claimed(m)) && s' == DoFire(s, c)
    requires forall k :: JobOf(s', k) == JobOf(s, k)
    ensures Locates(s', at')
  {
    assert HeldAt(s, m.id, ClaimedBy(c));
    forall p ensures HeldAt(s', m.id, p) <==> p == ReportedAt(|s.reports|) {
      if HeldAt(s', m.id, p) && p != ReportedAt(|s.reports|) {
        assert HeldAt(s, m.id, p);
      }
    }
    forall x, p | x != m.id ensures HeldAt(s', x, p) == HeldAt(s, x, p) {
    }
    at' := Relocate(s, s', at, {m.id}, ReportedAt(|s.reports|));
  }

  lemma SendCommitKeeps(s: State, id: CmdId, wrote: bool)
    requires Inv(s)
    ensures Inv(DoSendCommit(s, id, wrote))
  {
    if id in s.senders && s.senders[id].pc.HoldingConn? {
      var c := s.senders[id].pc.conn;
      if wrote && c in s.hub.agents && !s.hub.agents[c].closed {
        SentInv(s, id, c);
      } else {
        SenderKeeps(s, id, s.senders[id].(pc := SendFailed));
      }
    }
  }

  lemma SentInv(s: State, id: CmdId, c: ConnId)
    requires Inv(s) && id in s.senders && s.senders[id].pc == HoldingConn(c)
    requires c in s.hub.agents && !s.hub.agents[c].closed
    ensures Inv(DoSendCommit(s, id, true))
  {
    OpenInv(s);
    var at :| Locates(s, at);
    var s' := DoSendCommit(s, id, true);
    SentClosing(s, s', id, c);
    RependRegistered(s, c, s.hub.agents[c].pending + {id});
    SendersRegistered(s.(hub := s'.hub), s'.senders);
    SentLocates(s, s', id, c, at);
    CloseInv(s', at[id := PendingOn(c)]);
  }

  lemma SendersRegistered(s: State, senders: map<CmdId, Sender>)
    requires RegisteredOk(s) && RowsOk(s)
    ensures RegisteredOk(s.(senders := senders)) && RowsOk(s.(senders := senders))
  {
  }

  lemma SentClosing(s: State, s': State, id: CmdId, c: ConnId)
    requires JobsOk(s) && OwnedOk(s) && ClosingsOk(s) && id in s.senders && s.senders[id].pc == HoldingConn(c)
    requires c in s.hub.agents && !s.hub.agents[c].closed && s' == DoSendCommit(s, id, true)
    ensures JobsOk(s') && OwnedOk(s') && ClosingsOk(s')
  {
    forall k ensures JobOf(s', k) == JobOf(s, k) {
    }
    var pending := s.hub.agents[c].pending + {id};
    assert s'.hub.agents == s.hub.agents[c := s.hub.agents[c].(pending := pending)];
    RependClosing(s, s', c);
  }

  lemma SentLocates(s: State, s': State, id: CmdId, c: ConnId, at: map<CmdId, Place>)
    requires Locates(s, at) && id in s.senders && s.senders[id].pc == HoldingConn(c)
    requires c in s.hub.agents && !s.hub.agents[c].closed && s' == DoSendCommit(s, id, true)
    ensures Locates(s', at[id := PendingOn(c)])
  {
    var at' := at[id := PendingOn(c)];
    assert !WasSent(s, id) && id !in at;
    forall k ensures JobOf(s', k) == JobOf(s, k) {
    }
    forall x, p ensures HeldAt(s', x, p) == (HeldAt(s, x, p) || (x == id && p == PendingOn(c))) {
    }
    forall x, p | HeldAt(s', x, p) ensures x in at' && at'[x] == p {
      if x == id {
        assert !HeldAt(s, x, p);
      } else {
        assert HeldAt(s, x, p);
      }
    }
    forall x | x in at' ensures HeldAt(s', x, at'[x]) {
      assert x != id ==> HeldAt(s, x, at[x]);
    }
    forall x ensures x in at' <==> WasSent(s', x) {
      assert x != id ==> WasSent(s', x) == WasSent(s, x);
    }
  }

  // ----- every run -----

  lemma ApplyKeeps(s: State, e: Step)
    requires Inv(s)
    ensures Inv(Apply(s, e))
  {
    match e
    case CreateRow(v) => if v !in s.used { CreateRowKeeps(s, v); }
    case Arrive(c, v) => ArriveKeeps(s, c, v);
    case Register(c) => RegisterKeeps(s, c);
    case CloseDrain(k) => DrainKeeps(s, k);
    case CloseReport(k, id) => ReportKeeps(s, k, id);
    case CloseEnd(k) => EndKeeps(s, k);
    case CheckRow(c, up) => CheckKeeps(s, c, up);
    case Receive(c, m) => ReceiveKeeps(s, c, m);
    case ReadError(c) => if At(s, c, Reading) { ReadErrorKeeps(s, c); }
    case FinishLookup(c) => FinishLookupKeeps(s, c);
    case FinishCommit(c) => FinishCommitKeeps(s, c);
    case Fire(c) => FireKeeps(s, c);
    case Unregister(c) => UnregisterKeeps(s, c);
    case DeleteRow(v) => DeleteRowKeeps(s, v);
    case Disconnect(v) => DisconnectKeeps(s, v);
    case SendStart(id, v) => if id !in s.senders { SenderKeeps(s, id, Sender(v, Looking)); }
    case SendLookup(id) => SendLookupKeeps(s, id);
    case SendCommit(id, wrote) => SendCommitKeeps(s, id, wrote);
  }

  lemma StartInv()
    ensures Inv(START)
  {
    forall id, p ensures !HeldAt(START, id, p) {
    }
    assert Locates(START, map[]);
    CloseInv(START, map[]);
  }

  lemma {:induction false} RunInv(steps: seq<Step>)
    ensures Inv(Run(steps))
    decreases |steps|
  {
    if steps == [] {
      StartInv();
    } else {
      RunInv(steps[..|steps| - 1]);
      ApplyKeeps(Run(steps[..|steps| - 1]), steps[|steps| - 1]);
    }
  }

  // ----- theorems -----

  /**
   Exactly-once outcome: in every interleaving a command whose `Send` succeeded is in exactly one
   place (pending on one open connection, drained by one closer, claimed by one handler,
   or reported), and a command whose `Send` failed or is still under way is in none.
   */
  lemma EveryCommandInOnePlace(steps: seq<Step>, id: CmdId)
    ensures var s := Run(steps);
            && (WasSent(s, id) <==> exists p :: HeldAt(s, id, p))
            && (forall p, q | HeldAt(s, id, p) && HeldAt(s, id, q) :: p == q)
            && (forall c | HeldAt(s, id, PendingOn(c)) :: !s.hub.agents[c].closed)
  {
    RunInv(steps);
    var s := Run(steps);
    OpenInv(s);
    var at :| Locates(s, at);
    if WasSent(s, id) {
      assert HeldAt(s, id, at[id]);
    }
    forall c | HeldAt(s, id, PendingOn(c)) ensures !s.hub.agents[c].closed {
    }
  }

  /** No command ever gets two terminal callbacks. */
  lemma AtMostOneReport(steps: seq<Step>, i: nat, j: nat)
    requires i < j < |Run(steps).reports|
    ensures Run(steps).reports[i].id != Run(steps).reports[j].id
  {
    var s := Run(steps);
    var id := s.reports[i].id;
    EveryCommandInOnePlace(steps, id);
    assert HeldAt(s, id, ReportedAt(i));
    assert s.reports[j].id == id ==> HeldAt(s, id, ReportedAt(j));
  }

  predicate Settles(m: Msg) {
    m.Result? || (m.Ack? && !m.accepted)
  }

  predicate Answering(pc: HandlerPc) {
    pc.Finishing? || pc.Holding? || pc.Claimed?
  }

  /** Whatever a handler claims or answered with is a result or a rejecting ack. */
  ghost predicate AnswersOk(s: State) {
    && (forall c | c in s.handlers && Answering(s.handlers[c].pc) :: Settles(s.handlers[c].pc.msg))
    && (forall i | 0 <= i < |s.reports| && s.reports[i].Answered? ::
          Settles(s.reports[i].msg) && s.reports[i].msg.id == s.reports[i].id)
  }

  lemma CloserAnswers(s: State, k: Closer, id: CmdId)
    requires AnswersOk(s)
    ensures AnswersOk(DoDrain(s, k)) && AnswersOk(DoReport(s, k, id)) && AnswersOk(DoEnd(s, k))
  {
  }

  lemma MessageAnswers(s: State, c: ConnId, m: Msg)
    requires AnswersOk(s)
    ensures AnswersOk(DoReceive(s, c, m)) && AnswersOk(DoFinishLookup(s, c)) && AnswersOk(DoFinishCommit(s, c))
    ensures AnswersOk(DoFire(s, c))
  {
  }

  lemma HandlerAnswers(s: State, c: ConnId, v: ServerId, up: bool)
    requires AnswersOk(s)
    ensures AnswersOk(DoArrive(s, c, v)) && AnswersOk(DoRegister(s, c)) && AnswersOk(DoCheck(s, c, up))
    ensures AnswersOk(DoUnregister(s, c)) && AnswersOk(Apply(s, ReadError(c)))
  {
  }

  lemma StepAnswers(s: State, e: Step)
    requires AnswersOk(s)
    ensures AnswersOk(Apply(s, e))
  {
    match e
    case Arrive(c, v) => HandlerAnswers(s, c, v, true);
    case Register(c) => HandlerAnswers(s, c, 0, true);
    case CheckRow(c, up) => HandlerAnswers(s, c, 0, up);
    case Unregister(c) => HandlerAnswers(s, c, 0, true);
    case ReadError(c) => HandlerAnswers(s, c, 0, true);
    case CloseDrain(k) => CloserAnswers(s, k, 0);
    case CloseReport(k, id) => CloserAnswers(s, k, id);
    case CloseEnd(k) => CloserAnswers(s, k, 0);
    case Receive(c, m) => MessageAnswers(s, c, m);
    case FinishLookup(c) => MessageAnswers(s, c, Ack(0, true));
    case FinishCommit(c) => MessageAnswers(s, c, Ack(0, true));
    case Fire(c) => MessageAnswers(s, c, Ack(0, true));
    case _ => OutsideAnswers(s, e);
  }

  lemma OutsideAnswers(s: State, e: Step)
    requires AnswersOk(s)
    requires e.CreateRow? || e.DeleteRow? || e.Disconnect? || e.SendStart? || e.SendLookup? || e.SendCommit?
    ensures AnswersOk(Apply(s, e))
  {
  }

  /** Every answer reported is a result or a rejecting ack, for the command it names. */
  lemma {:induction false} AnswersAreFinal(steps: seq<Step>)
    ensures AnswersOk(Run(steps))
    decreases |steps|
  {
    if steps != [] {
      AnswersAreFinal(steps[..|steps| - 1]);
      StepAnswers(Run(steps[..|steps| - 1]), steps[|steps| - 1]);
    }
  }

  /** The check after registration: a handler goes on to read exactly when the row is there and was read. */
  lemma CheckDecides(s: State, c: ConnId, up: bool)
    requires At(s, c, Checking)
    ensures var h := Apply(s, CheckRow(c, up)).handlers[c];
            && h.server == s.handlers[c].server
            && (if up && s.handlers[c].server in s.rows then h.pc == Reading && h.passed else h.pc == Leaving)
  {
  }

  /** Every terminal callback is for a command whose `Send` succeeded. */
  lemma ReportsOnlySentCommands(steps: seq<Step>, i: nat)
    requires i < |Run(steps).reports|
    ensures WasSent(Run(steps), Run(steps).reports[i].id)
  {
    EveryCommandInOnePlace(steps, Run(steps).reports[i].id);
    assert HeldAt(Run(steps), Run(steps).reports[i].id, ReportedAt(i));
  }

  /** No `closeAgent` is under way and no claimed answer waits for its callback. */
  ghost predicate Idle(s: State) {
    (forall k :: JobOf(s, k) == None) && (forall c | c in s.handlers :: !s.handlers[c].pc.Claimed?)
  }

  lemma NothingToDrain(s: State, c: ConnId)
    requires Idle(s)
    ensures !exists k :: JobOf(s, k) == Some(Drain(c))
  {
    forall k ensures JobOf(s, k) != Some(Drain(c)) {
      assert JobOf(s, k) == None;
    }
  }

  /** Nothing is lost: with no call in flight a sent command waits on a current connection or was reported. */
  lemma IdleMeansWaitingOrReported(steps: seq<Step>, id: CmdId)
    requires Idle(Run(steps)) && WasSent(Run(steps), id)
    ensures var s := Run(steps);
            || (exists c :: IsCurrent(s.hub, c) && id in s.hub.agents[c].pending)
            || (exists i :: 0 <= i < |s.reports| && s.reports[i].id == id)
  {
    var s := Run(steps);
    EveryCommandInOnePlace(steps, id);
    NoStrandedConnection(steps);
    var p :| HeldAt(s, id, p);
    match p
    case PendingOn(c) => assert AccountedFor(s, c); NothingToDrain(s, c);
    case DrainedBy(_) => assert false;
    case ClaimedBy(_) => assert false;
    case ReportedAt(i) => assert s.reports[i].id == id;
  }

  ghost predicate AccountedFor(s: State, c: ConnId)
    requires c in s.hub.agents
  {
    && (c in s.closings <==> !IsCurrent(s.hub, c))
    && (s.hub.agents[c].closed ==> s.hub.agents[c].pending == {})
    && (IsCurrent(s.hub, c) ==> !s.hub.agents[c].closed)
    && (!s.hub.agents[c].closed && !IsCurrent(s.hub, c) ==> exists k :: JobOf(s, k) == Some(Drain(c)))
  }

  /**
   No stranded connection: every connection is handed to `closeAgent` at most once, exactly those
   out of the map were; an open one is in the map or has exactly one closer about to
   drain it; a closed one has nothing pending.
   */
  lemma NoStrandedConnection(steps: seq<Step>)
    ensures var s := Run(steps);
            && (forall i, j | 0 <= i < j < |s.closings| :: s.closings[i] != s.closings[j])
            && (forall c | c in s.hub.agents :: AccountedFor(s, c))
            && (forall a, b | JobOf(s, a).Some? && JobOf(s, b).Some?
                              && JobOf(s, a).value.target == JobOf(s, b).value.target :: a == b)
  {
    RunInv(steps);
    OpenInv(Run(steps));
  }

  /** With no call in flight the map holds exactly the open connections. */
  lemma IdleMapIsOpenConnections(steps: seq<Step>)
    requires Idle(Run(steps))
    ensures var s := Run(steps);
            forall c | c in s.hub.agents :: !s.hub.agents[c].closed <==> IsCurrent(s.hub, c)
  {
    RunInv(steps);
    IdleOpen(Run(steps));
  }

  lemma IdleOpen(s: State)
    requires Inv(s) && Idle(s)
    ensures forall c | c in s.hub.agents :: !s.hub.agents[c].closed <==> IsCurrent(s.hub, c)
  {
    OpenInv(s);
    forall c | c in s.hub.agents ensures !s.hub.agents[c].closed <==> IsCurrent(s.hub, c) {
      NothingToDrain(s, c);
    }
  }

  /**
   A server's entry in the map changes only by a register for that server, which installs its own
   connection, by the server's disconnect, or by the unregister of the very handler whose
   connection it is: an older handler never removes a newer connection.
   */
  lemma EntryChangesOnly(s: State, e: Step, v: ServerId)
    ensures var now, next := Current(s.hub, v), Current(Apply(s, e).hub, v);
            next != now ==>
              || (e.Register? && At(s, e.conn, Authed) && s.handlers[e.conn].server == v && next == Some(e.conn))
              || (e == Disconnect(v) && v in s.deleters && next == None)
              || (e.Unregister? && At(s, e.conn, Leaving) && now == Some(e.conn) && next == None)
  {
  }

  /**
   Delete and register: once a server's row is deleted and `Disconnect` has looked at the map, any
   connection of it whose handler passed its check is out of the map and closed or about to be
   drained, and a current one belongs to a handler that has not checked yet or is leaving.
   */
  lemma DeleteRegisterHandshake(steps: seq<Step>, v: ServerId, c: ConnId)
    requires Disconnected(Run(steps), v)
    requires c in Run(steps).handlers && Run(steps).handlers[c].server == v
    ensures var s := Run(steps);
            && (s.handlers[c].passed ==>
                  && Current(s.hub, v) != Some(c)
                  && (c in s.hub.agents ==> s.hub.agents[c].closed || exists k :: JobOf(s, k) == Some(Drain(c))))
            && (Current(s.hub, v) == Some(c) ==>
                  s.handlers[c].pc.ClosingOld? || s.handlers[c].pc.Checking? || s.handlers[c].pc.Leaving?)
  {
    RunInv(steps);
    var s := Run(steps);
    OpenInv(s);
    assert Disconnected(s, v);
  }

  /** The row is gone, no connection is registered and no handler is about to register one. */
  ghost predicate Deserted(s: State, v: ServerId) {
    && v in s.deleters && v in s.used && v !in s.rows && v !in s.hub.conns
    && (forall c | c in s.handlers && s.handlers[c].server == v :: !s.handlers[c].pc.Authed?)
  }

  /** No handler of the server starts over. */
  ghost predicate NoneStarts(s: State, s': State, v: ServerId) {
    forall c | c in s'.handlers && s'.handlers[c].server == v && s'.handlers[c].pc.Authed? ::
      c in s.handlers && s.handlers[c].server == v && s.handlers[c].pc.Authed?
  }

  lemma CloserStarts(s: State, k: Closer, id: CmdId, v: ServerId)
    ensures NoneStarts(s, DoDrain(s, k), v) && NoneStarts(s, DoReport(s, k, id), v) && NoneStarts(s, DoEnd(s, k), v)
  {
  }

  lemma MessageStarts(s: State, c: ConnId, m: Msg, v: ServerId)
    ensures NoneStarts(s, DoReceive(s, c, m), v) && NoneStarts(s, DoFinishLookup(s, c), v)
    ensures NoneStarts(s, DoFinishCommit(s, c), v) && NoneStarts(s, DoFire(s, c), v)
  {
  }

  lemma HandlerStarts(s: State, c: ConnId, up: bool, v: ServerId)
    ensures NoneStarts(s, DoRegister(s, c), v) && NoneStarts(s, DoCheck(s, c, up), v)
    ensures NoneStarts(s, DoUnregister(s, c), v) && NoneStarts(s, Apply(s, ReadError(c)), v)
  {
  }

  lemma StepStarts(s: State, e: Step, v: ServerId)
    requires e.Arrive? ==> v !in s.rows
    ensures NoneStarts(s, Apply(s, e), v)
  {
    match e
    case Register(c) => HandlerStarts(s, c, true, v);
    case CheckRow(c, up) => HandlerStarts(s, c, up, v);
    case Unregister(c) => HandlerStarts(s, c, true, v);
    case ReadError(c) => HandlerStarts(s, c, true, v);
    case CloseDrain(k) => CloserStarts(s, k, 0, v);
    case CloseReport(k, id) => CloserStarts(s, k, id, v);
    case CloseEnd(k) => CloserStarts(s, k, 0, v);
    case Receive(c, m) => MessageStarts(s, c, m, v);
    case FinishLookup(c) => MessageStarts(s, c, Ack(0, true), v);
    case FinishCommit(c) => MessageStarts(s, c, Ack(0, true), v);
    case Fire(c) => MessageStarts(s, c, Ack(0, true), v);
    case _ => OutsideStarts(s, e, v);
  }

  lemma OutsideStarts(s: State, e: Step, v: ServerId)
    requires e.CreateRow? || e.Arrive? || e.DeleteRow? || e.Disconnect?
             || e.SendStart? || e.SendLookup? || e.SendCommit?
    requires e.Arrive? ==> v !in s.rows
    ensures NoneStarts(s, Apply(s, e), v)
  {
  }

  /** Once deleted, always deleted. */
  lemma RowStaysGone(s: State, e: Step, v: ServerId)
    requires v in s.deleters && v in s.used && v !in s.rows
    ensures var s' := Apply(s, e); v in s'.deleters && v in s'.used && v !in s'.rows
  {
    match e
    case Register(_) =>
    case CloseDrain(_) =>
    case CloseReport(_, _) =>
    case CloseEnd(_) =>
    case Unregister(_) =>
    case FinishCommit(_) =>
    case _ =>
  }

  lemma DesertedStep(s: State, e: Step, v: ServerId)
    requires Deserted(s, v)
    ensures Deserted(Apply(s, e), v)
  {
    RowStaysGone(s, e, v);
    StepStarts(s, e, v);
    EntryChangesOnly(s, e, v);
  }

  lemma {:induction false} DesertedForever(s: State, later: seq<Step>, v: ServerId)
    requires Deserted(s, v)
    ensures Deserted(RunFrom(s, later), v)
    decreases |later|
  {
    if later != [] {
      DesertedForever(s, later[..|later| - 1], v);
      DesertedStep(RunFrom(s, later[..|later| - 1]), later[|later| - 1], v);
    }
  }

  lemma AuthedCanRegister(s: State, v: ServerId, c: ConnId)
    requires At(s, c, Authed) && s.handlers[c].server == v
    ensures v in RunFrom(s, [Register(c)]).hub.conns
  {
    assert [Register(c)][..0] == [];
    assert RunFrom(s, []) == s;
  }

  /** The server stays offline, whatever happens next. */
  ghost predicate OfflineFrom(s: State, v: ServerId) {
    forall later :: v !in RunFrom(s, later).hub.conns
  }

  /**
   When a server whose row was deleted is offline for good: exactly when no connection of it is
   registered and no handler of it is still about to register one.
   */
  lemma OfflineForGood(steps: seq<Step>, v: ServerId)
    requires v in Run(steps).deleters
    ensures var s := Run(steps);
            OfflineFrom(s, v) <==>
            v !in s.hub.conns && forall c | c in s.handlers && s.handlers[c].server == v :: !s.handlers[c].pc.Authed?
  {
    RunInv(steps);
    assert Holds(Rows, Run(steps));
    OfflineExactly(Run(steps), v);
  }

  lemma OfflineExactly(s: State, v: ServerId)
    requires v in s.deleters && v in s.used && v !in s.rows
    ensures OfflineFrom(s, v) <==> Deserted(s, v)
  {
    if OfflineFrom(s, v) {
      assert RunFrom(s, []) == s;
      forall c | c in s.handlers && s.handlers[c].server == v ensures !s.handlers[c].pc.Authed? {
        if s.handlers[c].pc.Authed? {
          AuthedCanRegister(s, v, c);
        }
      }
    }
    if Deserted(s, v) {
      forall later ensures v !in RunFrom(s, later).hub.conns {
        DesertedForever(s, later, v);
      }
    }
  }
}
