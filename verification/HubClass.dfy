/**
 The hub and its callers as objects: the methods below are whole calls, run without interference.
 Each is specified through the critical sections of `HubModel`, and `HubCalls` shows that a
 whole call is a run of the interleaving steps that the concurrency results are about.
 */
module HubClass {
  import opened Options
  import opened HubModel

  /** A callback of the agent manager's service. */
  datatype Event =
    | OnInterrupted(server: ServerId, id: CmdId)
    | OnAck(server: ServerId, id: CmdId, accepted: bool)
    | OnLog(server: ServerId, id: CmdId, line: string)
    | OnResult(server: ServerId, id: CmdId, result: RunResult)

  /** A callback after which a command is settled. */
  predicate Terminal(e: Event) {
    e.OnInterrupted? || e.OnResult? || (e.OnAck? && !e.accepted)
  }

  /** `order` lists each of `ids` exactly once. */
  ghost predicate Lists(order: seq<CmdId>, ids: set<CmdId>) {
    && (forall id :: id in order <==> id in ids)
    && (forall i, j | 0 <= i < j < |order| :: order[i] != order[j])
  }

  function Interruptions(v: ServerId, order: seq<CmdId>): (es: seq<Event>)
    ensures |es| == |order|
    ensures forall i | 0 <= i < |order| :: es[i] == OnInterrupted(v, order[i])
  {
    seq(|order|, i requires 0 <= i < |order| => OnInterrupted(v, order[i]))
  }

  /** The keys of a pending set, in whatever order the iteration takes. */
  method Collect(pending: set<CmdId>) returns (ids: seq<CmdId>)
    ensures Lists(ids, pending)
  {
    ids := [];
    var left := pending;
    while left != {}
      invariant left <= pending
      invariant Lists(ids, pending - left)
      decreases |left|
    {
      var id :| id in left;
      ids, left := ids + [id], left - {id};
    }
  }

  class Callbacks {
    var log: seq<Event>

    constructor ()
      ensures log == []
    {
      log := [];
    }

    method ReportInterrupted(v: ServerId, ids: seq<CmdId>)
      modifies this
      ensures log == old(log) + Interruptions(v, ids)
    {
      var i := 0;
      while i < |ids|
        invariant 0 <= i <= |ids|
        invariant log == old(log) + Interruptions(v, ids[..i])
      {
        log := log + [OnInterrupted(v, ids[i])];
        assert Interruptions(v, ids[..i + 1]) == Interruptions(v, ids[..i]) + [OnInterrupted(v, ids[i])];
        i := i + 1;
      }
      assert ids[..i] == ids;
    }
  }

  /** The hub after the connection, if there is one, was closed and drained. */
  function CloseIn(h: Hub, c: Option<ConnId>): Hub {
    if c.Some? && c.value in h.agents then DrainConn(h, c.value) else h
  }

  function PendingIn(h: Hub, c: Option<ConnId>): set<CmdId> {
    if c.Some? && c.value in h.agents then h.agents[c.value].pending else {}
  }

  /** The commands waiting on the current connection of a server. */
  function Waiting(h: Hub, v: ServerId): set<CmdId> {
    PendingIn(h, Current(h, v))
  }

  /** No close is under way: the connections in the map are exactly the open ones, and closed ones hold nothing. */
  predicate Settled(h: Hub) {
    && (forall c | c in h.agents :: h.agents[c].closed <==> Current(h, h.agents[c].server) != Some(c))
    && (forall c | c in h.agents && h.agents[c].closed :: h.agents[c].pending == {})
  }

  /** The map names known connections, each under its own server. */
  predicate WellFormed(h: Hub) {
    forall v | v in h.conns :: h.conns[v] in h.agents && h.agents[h.conns[v]].server == v
  }

  lemma RegisterSettles(h: Hub, v: ServerId, c: ConnId)
    requires WellFormed(h) && Settled(h) && c !in h.agents
    ensures Settled(CloseIn(SwapIn(h, v, c), Current(h, v)))
  {
  }

  lemma DisconnectSettles(h: Hub, v: ServerId)
    requires WellFormed(h) && Settled(h)
    ensures Settled(CloseIn(TakeOut(h, v), Current(h, v)))
  {
  }

  /** The connection a send may write to. */
  function Writable(h: Hub, v: ServerId): Option<ConnId> {
    if v in h.conns && h.conns[v] in h.agents && !h.agents[h.conns[v]].closed then Some(h.conns[v]) else None
  }

  /** A whole `Send`: a failed write takes the id out again. */
  function SendIn(h: Hub, v: ServerId, id: CmdId, command: bool, deadlineSet: bool, wrote: bool): Hub {
    match Writable(h, v)
    case Some(c) =>
      if !deadlineSet then h
      else if !wrote then DropPending(h, c, id)
      else if command then AddPending(h, c, id)
      else h
    case None => h
  }

  /** A send that fails leaves no trace, as long as its id is new. */
  lemma FailedSendLeavesNoTrace(h: Hub, v: ServerId, id: CmdId, command: bool, deadlineSet: bool, wrote: bool)
    requires id !in Waiting(h, v) && (!deadlineSet || !wrote || Writable(h, v) == None)
    ensures SendIn(h, v, id, command, deadlineSet, wrote) == h
  {
    if Writable(h, v).Some? {
      var c := h.conns[v];
      assert h.agents[c].pending - {id} == h.agents[c].pending;
      assert h.agents[c := h.agents[c]] == h.agents;
    }
  }

  class AgentConn {
    const conn: ConnId
    ghost const server: ServerId
    var pending: set<CmdId>
    var closed: bool
    var socketClosed: bool

    constructor (conn: ConnId, ghost server: ServerId)
      ensures this.conn == conn && this.server == server && pending == {} && !closed && !socketClosed
    {
      this.conn, this.server := conn, server;
      pending, closed, socketClosed := {}, false, false;
    }

    ghost function Abs(): Conn
      reads this
    {
      Conn(server, pending, closed)
    }

    /** The part of `closeAgent` under the connection's lock. */
    method Drain() returns (ids: seq<CmdId>)
      modifies this
      ensures Abs() == old(Abs()).(pending := {}, closed := true) && socketClosed
      ensures Lists(ids, old(pending))
    {
      closed, socketClosed := true, true;
      ids := Collect(pending);
      pending := {};
    }
  }

  ghost function ConnsOf(conns: map<ServerId, AgentConn>): map<ServerId, ConnId> {
    map v | v in conns :: conns[v].conn
  }

  lemma ConnsOfUpdate(conns: map<ServerId, AgentConn>, v: ServerId, agent: AgentConn)
    ensures ConnsOf(conns[v := agent]) == ConnsOf(conns)[v := agent.conn]
  {
  }

  class AgentHub {
    var conns: map<ServerId, AgentConn>
    const callbacks: Callbacks
    ghost var all: map<ConnId, AgentConn>

    /** `all` names every connection there ever was; the map refers to connections of the right server. */
    ghost predicate Valid()
      reads this
    {
      && (forall c | c in all :: all[c].conn == c)
      && (forall v | v in conns :: conns[v].conn in all && all[conns[v].conn] == conns[v] && conns[v].server == v)
    }

    ghost function Objects(): set<object>
      reads this
    {
      set c | c in all :: all[c]
    }

    ghost function Abs(): Hub
      reads this, Objects()
    {
      Hub(ConnsOf(conns), map c | c in all :: all[c].Abs())
    }

    constructor (callbacks: Callbacks)
      ensures Valid() && Abs() == Hub(map[], map[]) && this.callbacks == callbacks
    {
      this.callbacks := callbacks;
      conns, all := map[], map[];
    }

    method CloseAgent(v: ServerId, agent: AgentConn) returns (ghost order: seq<CmdId>)
      requires Valid() && agent.conn in all && all[agent.conn] == agent
      modifies agent, callbacks
      ensures Valid() && Abs() == DrainConn(old(Abs()), agent.conn)
      ensures agent.closed && agent.socketClosed && agent.pending == {}
      ensures Lists(order, old(agent.pending))
      ensures callbacks.log == old(callbacks.log) + Interruptions(v, order)
    {
      var ids := agent.Drain();
      callbacks.ReportInterrupted(v, ids);
      order := ids;
    }

    /** The part of `Register` under the hub's lock. */
    method Install(v: ServerId, agent: AgentConn)
      requires Valid() && agent.conn !in all && agent.Abs() == Conn(v, {}, false)
      modifies this
      ensures Valid() && all == old(all)[agent.conn := agent] && conns == old(conns)[v := agent]
      ensures Abs() == SwapIn(old(Abs()), v, agent.conn)
    {
      ConnsOfUpdate(conns, v, agent);
      conns, all := conns[v := agent], all[agent.conn := agent];
      assert Abs().agents == old(Abs()).agents[agent.conn := Conn(v, {}, false)];
    }

    method Register(v: ServerId, c: ConnId) returns (ghost order: seq<CmdId>)
      requires Valid() && c !in all
      modifies this, Objects(), callbacks
      ensures Valid() && all.Keys == old(all.Keys) + {c} && fresh(Objects() - old(Objects()))
      ensures Abs() == CloseIn(SwapIn(old(Abs()), v, c), Current(old(Abs()), v))
      ensures v in conns && conns == old(conns)[v := conns[v]] && fresh(conns[v])
      ensures conns[v].conn == c && conns[v].pending == {} && !conns[v].closed
      ensures v in old(conns) ==> old(conns)[v].closed && old(conns)[v].socketClosed && old(conns)[v].pending == {}
      ensures Lists(order, Waiting(old(Abs()), v))
      ensures callbacks.log == old(callbacks.log) + Interruptions(v, order)
    {
      var previous := if v in conns then Some(conns[v]) else None;
      var agent := new AgentConn(c, v);
      Install(v, agent);
      order := [];
      if previous.Some? {
        order := CloseAgent(v, previous.value);
      }
    }

    method Unregister(v: ServerId, c: ConnId) returns (ghost order: seq<CmdId>)
      requires Valid()
      modifies this, Objects(), callbacks
      ensures Valid() && all == old(all)
      ensures Abs() == if Current(old(Abs()), v) == Some(c) then CloseIn(TakeOut(old(Abs()), v), Some(c))
                       else old(Abs())
      ensures Lists(order, if Current(old(Abs()), v) == Some(c) then Waiting(old(Abs()), v) else {})
      ensures conns == if v in old(conns) && old(conns)[v].conn == c then old(conns) - {v} else old(conns)
      ensures v in old(conns) && old(conns)[v].conn == c ==>
                old(conns)[v].closed && old(conns)[v].socketClosed && old(conns)[v].pending == {}
      ensures callbacks.log == old(callbacks.log) + Interruptions(v, order)
    {
      order := [];
      if v !in conns || conns[v].conn != c {
        return;
      }
      var current := conns[v];
      conns := conns - {v};
      assert Abs() == TakeOut(old(Abs()), v);
      order := CloseAgent(v, current);
    }

    method Disconnect(v: ServerId) returns (ghost order: seq<CmdId>)
      requires Valid()
      modifies this, Objects(), callbacks
      ensures Valid() && all == old(all)
      ensures Abs() == CloseIn(TakeOut(old(Abs()), v), Current(old(Abs()), v))
      ensures conns == old(conns) - {v}
      ensures v in old(conns) ==> old(conns)[v].closed && old(conns)[v].socketClosed && old(conns)[v].pending == {}
      ensures Lists(order, Waiting(old(Abs()), v))
      ensures callbacks.log == old(callbacks.log) + Interruptions(v, order)
    {
      var agent := if v in conns then Some(conns[v]) else None;
      conns := conns - {v};
      assert Abs() == TakeOut(old(Abs()), v);
      order := [];
      if agent.Some? {
        order := CloseAgent(v, agent.value);
      }
    }

    /** `deadlineSet` and `wrote` are the socket's answers; `command` tells a command from another envelope. */
    method Send(v: ServerId, id: CmdId, command: bool, deadlineSet: bool, wrote: bool) returns (ok: bool)
      requires Valid()
      modifies Objects()
      ensures Valid()
      ensures ok <==> deadlineSet && wrote && v in conns && !old(conns[v].closed)
      ensures Abs() == SendIn(old(Abs()), v, id, command, deadlineSet, wrote)
      ensures ok ==> conns[v].pending == old(conns[v].pending) + if command then {id} else {}
      ensures !ok && v in conns ==> old(conns[v].pending) - {id} <= conns[v].pending <= old(conns[v].pending)
      ensures !ok && Writable(old(Abs()), v).Some? ==> conns[v].socketClosed
    {
      if v !in conns || conns[v].closed {
        return false;
      }
      var agent := conns[v];
      if !deadlineSet {
        agent.socketClosed := true;
        return false;
      }
      if command {
        agent.pending := agent.pending + {id};
      }
      if !wrote {
        agent.pending := agent.pending - {id};
        agent.socketClosed := true;
        assert agent.pending == old(agent.pending) - {id};
        return false;
      }
      return true;
    }

    method Finish(v: ServerId, id: CmdId) returns (claimed: bool)
      requires Valid()
      modifies Objects()
      ensures Valid()
      ensures claimed <==> v in conns && id in old(conns[v].pending)
      ensures v in conns ==> conns[v].pending == old(conns[v].pending) - {id}
      ensures Abs() == if claimed then DropPending(old(Abs()), old(conns[v].conn), id) else old(Abs())
    {
      if v !in conns {
        return false;
      }
      var agent := conns[v];
      if id !in agent.pending {
        return false;
      }
      agent.pending := agent.pending - {id};
      return true;
    }

    method IsOnline(v: ServerId) returns (online: bool)
      requires Valid()
      ensures online <==> Current(Abs(), v).Some?
    {
      online := v in conns;
    }

    method Count() returns (n: nat)
      requires Valid()
      ensures n == |Abs().conns|
    {
      n := |conns|;
      assert Abs().conns.Keys == conns.Keys;
    }
  }

  /** What the agent sent, as the read loop sees it: a message, a ping, or something that ends the loop. */
  datatype Incoming = Message(msg: Msg) | Ping | Broken

  /** The callback a message fires once it is allowed to. */
  function EventOf(v: ServerId, m: Msg): Event {
    match m
    case Ack(id, accepted) => OnAck(v, id, accepted)
    case Log(id, line) => OnLog(v, id, line)
    case Result(id, result) => OnResult(v, id, result)
  }

  /** Whether a message must first claim its command. */
  predicate Settles(m: Msg) {
    m.Result? || (m.Ack? && !m.accepted)
  }

  /** One message: the hub after it, and the callbacks it fired. */
  function HandleIn(h: Hub, v: ServerId, m: Msg): (Hub, seq<Event>) {
    if !Settles(m) then (h, [EventOf(v, m)])
    else if m.id !in Waiting(h, v) then (h, [])
    else (DropPending(h, h.conns[v], m.id), [EventOf(v, m)])
  }

  /** The read loop as a fold: it stops at the first broken input. */
  function HandleAll(h: Hub, v: ServerId, inbox: seq<Incoming>): (Hub, seq<Event>)
    decreases |inbox|
  {
    if inbox == [] || inbox[0].Broken? then (h, [])
    else if inbox[0].Ping? then HandleAll(h, v, inbox[1..])
    else
      var (h1, es1) := HandleIn(h, v, inbox[0].msg);
      var (h2, es2) := HandleAll(h1, v, inbox[1..]);
      (h2, es1 + es2)
  }

  function After(fired: seq<Event>, rest: (Hub, seq<Event>)): (Hub, seq<Event>) {
    (rest.0, fired + rest.1)
  }

  /** One turn of the read loop. */
  lemma HandleNext(h: Hub, v: ServerId, inbox: seq<Incoming>, i: nat, fired: seq<Event>)
    requires i < |inbox|
    ensures var rest := HandleAll(h, v, inbox[i..]);
            match inbox[i]
            case Broken => rest == (h, [])
            case Ping => rest == HandleAll(h, v, inbox[i + 1..])
            case Message(m) =>
              var (h1, es1) := HandleIn(h, v, m);
              After(fired, rest) == After(fired + es1, HandleAll(h1, v, inbox[i + 1..]))
  {
    assert inbox[i..][1..] == inbox[i + 1..];
    if inbox[i].Message? {
      var (h1, es1) := HandleIn(h, v, inbox[i].msg);
      var (h2, es2) := HandleAll(h1, v, inbox[i + 1..]);
      assert fired + (es1 + es2) == (fired + es1) + es2;
    }
  }

  function TerminalIds(es: seq<Event>): seq<CmdId> {
    if es == [] then [] else (if Terminal(es[0]) then [es[0].id] else []) + TerminalIds(es[1..])
  }

  lemma TerminalIdsCons(e: Event, es: seq<Event>)
    ensures TerminalIds([e] + es) == (if Terminal(e) then [e.id] else []) + TerminalIds(es)
  {
    assert ([e] + es)[1..] == es;
  }

  lemma {:induction false} TerminalIdsConcat(a: seq<Event>, b: seq<Event>)
    ensures TerminalIds(a + b) == TerminalIds(a) + TerminalIds(b)
    decreases |a|
  {
    if a == [] {
      assert a + b == b;
    } else {
      var e, rest := a[0], a[1..];
      TerminalIdsConcat(rest, b);
      TerminalIdsCons(e, rest);
      TerminalIdsCons(e, rest + b);
      assert a == [e] + rest && a + b == [e] + (rest + b);
    }
  }

  /**
   Conservation in the read loop: however often the agent repeats itself, the commands that were
   waiting are exactly those still waiting and those settled by a callback, the two
   are disjoint, and no command is settled twice.
   */
  lemma {:induction false} ReadLoopConserves(h: Hub, v: ServerId, inbox: seq<Incoming>)
    ensures var (h', es) := HandleAll(h, v, inbox);
            var settled := TerminalIds(es);
            && Waiting(h, v) == Waiting(h', v) + (set id | id in settled)
            && (forall id | id in settled :: id !in Waiting(h', v))
            && (forall i, j | 0 <= i < j < |settled| :: settled[i] != settled[j])
            && Current(h', v) == Current(h, v)
    decreases |inbox|
  {
    if inbox == [] || inbox[0].Broken? {
    } else if inbox[0].Ping? {
      ReadLoopConserves(h, v, inbox[1..]);
    } else {
      var m := inbox[0].msg;
      var (h1, es1) := HandleIn(h, v, m);
      var (h2, es2) := HandleAll(h1, v, inbox[1..]);
      ReadLoopConserves(h1, v, inbox[1..]);
      TerminalIdsConcat(es1, es2);
      HandleConserves(h, v, m);
    }
  }

  /** A message after which its command is settled. */
  predicate Ends(m: Msg) {
    m.Result? || (m.Ack? && !m.accepted)
  }

  /** The command waits on the server's current connection. */
  predicate IsWaiting(h: Hub, v: ServerId, id: CmdId) {
    v in h.conns && h.conns[v] in h.agents && id in h.agents[h.conns[v]].pending
  }

  /** The callback passes the message on: same server, same id, same content. */
  predicate PassesOn(v: ServerId, m: Msg, e: Event) {
    match m
    case Ack(id, accepted) => e == OnAck(v, id, accepted)
    case Log(id, line) => e == OnLog(v, id, line)
    case Result(id, result) => e == OnResult(v, id, result)
  }

  /**
   Told from the input alone, whether message `j` fires its callback: nothing up to it broke the loop,
   and if it settles its command, that was waiting and no earlier message settled it.
   */
  ghost predicate Fires(h: Hub, v: ServerId, inbox: seq<Incoming>, j: int) {
    && 0 <= j < |inbox| && inbox[j].Message? && (forall i | 0 <= i <= j :: !inbox[i].Broken?)
    && (Ends(inbox[j].msg) ==>
          && IsWaiting(h, v, inbox[j].msg.id)
          && (forall i | 0 <= i < j && inbox[i].Message? && Ends(inbox[i].msg) ::
                inbox[i].msg.id != inbox[j].msg.id))
  }

  /** The messages at `at`, in order, are passed on as `es`. */
  ghost predicate PassedOn(v: ServerId, inbox: seq<Incoming>, at: seq<nat>, es: seq<Event>) {
    && |at| == |es|
    && (forall i, j | 0 <= i < j < |at| :: at[i] < at[j])
    && (forall i | 0 <= i < |at| ::
          at[i] < |inbox| && inbox[at[i]].Message? && PassesOn(v, inbox[at[i]].msg, es[i]))
  }

  function Later(at: seq<nat>): (later: seq<nat>)
    ensures |later| == |at| && forall i | 0 <= i < |at| :: later[i] == at[i] + 1
  {
    seq(|at|, i requires 0 <= i < |at| => at[i] + 1)
  }

  lemma PassedOnLater(v: ServerId, inbox: seq<Incoming>, at: seq<nat>, es: seq<Event>)
    requires inbox != [] && PassedOn(v, inbox[1..], at, es)
    ensures PassedOn(v, inbox, Later(at), es)
    ensures forall j :: j in Later(at) <==> j - 1 in at
  {
    var later := Later(at);
    forall i | 0 <= i < |later|
      ensures later[i] < |inbox| && inbox[later[i]].Message? && PassesOn(v, inbox[later[i]].msg, es[i])
    {
      assert inbox[later[i]] == inbox[1..][at[i]];
    }
    forall j ensures j in later <==> j - 1 in at {
      if j - 1 in at {
        var i :| 0 <= i < |at| && at[i] == j - 1;
        assert later[i] == j;
      }
    }
  }

  /** What the first message leaves waiting. */
  lemma WaitingAfter(h: Hub, v: ServerId, m: Msg, id: CmdId)
    ensures IsWaiting(HandleIn(h, v, m).0, v, id) <==> IsWaiting(h, v, id) && !(Ends(m) && m.id == id)
    ensures HandleIn(h, v, m).1 != [] <==> !Ends(m) || IsWaiting(h, v, m.id)
    ensures HandleIn(h, v, m).1 != [] ==> |HandleIn(h, v, m).1| == 1 && PassesOn(v, m, HandleIn(h, v, m).1[0])
  {
  }

  lemma FiresLater(h: Hub, v: ServerId, inbox: seq<Incoming>, j: int)
    requires inbox != [] && !inbox[0].Broken? && 1 <= j
    ensures var h' := if inbox[0].Message? then HandleIn(h, v, inbox[0].msg).0 else h;
            Fires(h, v, inbox, j) <==> Fires(h', v, inbox[1..], j - 1)
  {
    var rest := inbox[1..];
    assert forall i | 0 <= i < |rest| :: rest[i] == inbox[i + 1];
    if j < |inbox| && inbox[0].Message? && inbox[j].Message? {
      WaitingAfter(h, v, inbox[0].msg, inbox[j].msg.id);
    }
  }

  /**
   What the read loop does, told from its input alone: exactly the messages that may fire do, in
   order, each passed on unchanged.
   */
  lemma {:induction false} ReadLoopFires(h: Hub, v: ServerId, inbox: seq<Incoming>) returns (at: seq<nat>)
    ensures PassedOn(v, inbox, at, HandleAll(h, v, inbox).1)
    ensures forall j :: j in at <==> Fires(h, v, inbox, j)
    decreases |inbox|
  {
    if inbox == [] || inbox[0].Broken? {
      at := [];
      NothingFires(h, v, inbox);
    } else {
      HandleFirst(h, v, inbox);
      var h' := if inbox[0].Message? then HandleIn(h, v, inbox[0].msg).0 else h;
      var rest := ReadLoopFires(h', v, inbox[1..]);
      var es := HandleAll(h', v, inbox[1..]).1;
      LaterFires(h, h', v, inbox, rest, es);
      at := FirstFires(h, v, inbox, Later(rest), es);
    }
  }

  lemma NothingFires(h: Hub, v: ServerId, inbox: seq<Incoming>)
    requires inbox == [] || inbox[0].Broken?
    ensures HandleAll(h, v, inbox).1 == [] && forall j :: !Fires(h, v, inbox, j)
  {
  }

  lemma HandleFirst(h: Hub, v: ServerId, inbox: seq<Incoming>)
    requires inbox != [] && !inbox[0].Broken?
    ensures var h' := if inbox[0].Message? then HandleIn(h, v, inbox[0].msg).0 else h;
            var first := if inbox[0].Message? then HandleIn(h, v, inbox[0].msg).1 else [];
            HandleAll(h, v, inbox).1 == first + HandleAll(h', v, inbox[1..]).1
  {
    var rest := HandleAll(h, v, inbox[1..]).1;
    assert [] + rest == rest;
  }

  /** What holds of the rest of the input holds one place later of the whole. */
  lemma LaterFires(h: Hub, h': Hub, v: ServerId, inbox: seq<Incoming>, rest: seq<nat>, es: seq<Event>)
    requires inbox != [] && !inbox[0].Broken? && PassedOn(v, inbox[1..], rest, es)
    requires h' == if inbox[0].Message? then HandleIn(h, v, inbox[0].msg).0 else h
    requires forall j :: j in rest <==> Fires(h', v, inbox[1..], j)
    ensures PassedOn(v, inbox, Later(rest), es) && (forall j | j in Later(rest) :: 1 <= j)
    ensures forall j | 1 <= j :: j in Later(rest) <==> Fires(h, v, inbox, j)
  {
    PassedOnLater(v, inbox, rest, es);
    forall j | 1 <= j ensures j in Later(rest) <==> Fires(h, v, inbox, j) {
      FiresLater(h, v, inbox, j);
      assert j in Later(rest) <==> j - 1 in rest;
    }
  }

  /** The first message fires or not, before the rest. */
  lemma FirstFires(h: Hub, v: ServerId, inbox: seq<Incoming>, later: seq<nat>, es: seq<Event>) returns (at: seq<nat>)
    requires inbox != [] && !inbox[0].Broken? && PassedOn(v, inbox, later, es)
    requires forall j | j in later :: 1 <= j
    requires forall j | 1 <= j :: j in later <==> Fires(h, v, inbox, j)
    ensures var first := if inbox[0].Message? then HandleIn(h, v, inbox[0].msg).1 else [];
            PassedOn(v, inbox, at, first + es)
    ensures forall j :: j in at <==> Fires(h, v, inbox, j)
  {
    var first := if inbox[0].Message? then HandleIn(h, v, inbox[0].msg).1 else [];
    if inbox[0].Message? {
      WaitingAfter(h, v, inbox[0].msg, inbox[0].msg.id);
    }
    if first == [] {
      at := later;
      assert first + es == es;
    } else {
      at := [0] + later;
      forall i | 0 < i < |at| ensures at[i] == later[i - 1] && 0 < at[i] {
        assert later[i - 1] in later;
      }
    }
  }

  lemma HandleConserves(h: Hub, v: ServerId, m: Msg)
    ensures var (h', es) := HandleIn(h, v, m);
            && Current(h', v) == Current(h, v)
            && TerminalIds(es) == (if Settles(m) && m.id in Waiting(h, v) then [m.id] else [])
            && Waiting(h', v) == Waiting(h, v) - set id | id in TerminalIds(es)
  {
    var (h', es) := HandleIn(h, v, m);
    if es != [] {
      assert es[1..] == [];
    }
  }

  class Service {
    const hub: AgentHub
    const callbacks: Callbacks

    ghost predicate Valid()
      reads this, hub
    {
      hub.Valid() && hub.callbacks == callbacks
    }

    constructor (hub: AgentHub)
      requires hub.Valid()
      ensures Valid() && this.hub == hub
    {
      this.hub, callbacks := hub, hub.callbacks;
    }

    /** `id` is a new UUID; the caller gets it only if the command went out. */
    method SendCommand(v: ServerId, id: CmdId, deadlineSet: bool, wrote: bool) returns (r: Option<CmdId>)
      requires Valid() && id !in Waiting(hub.Abs(), v)
      modifies hub.Objects()
      ensures Valid() && (r == Some(id) || r == None)
      ensures r.Some? <==> deadlineSet && wrote && v in hub.conns && !old(hub.conns[v].closed)
      ensures r.Some? ==> hub.conns[v].pending == old(hub.conns[v].pending) + {id}
      ensures hub.Abs() == match r
                           case Some(_) => AddPending(old(hub.Abs()), hub.conns[v].conn, id)
                           case None => old(hub.Abs())
    {
      FailedSendLeavesNoTrace(hub.Abs(), v, id, true, false, wrote);
      if Writable(hub.Abs(), v).None? || !wrote {
        FailedSendLeavesNoTrace(hub.Abs(), v, id, true, deadlineSet, wrote);
      }
      var ok := hub.Send(v, id, true, deadlineSet, wrote);
      r := if ok then Some(id) else None;
    }

    method HandleAck(v: ServerId, id: CmdId, accepted: bool)
      requires Valid()
      modifies hub.Objects(), callbacks
      ensures Valid()
      ensures var (h, es) := HandleIn(old(hub.Abs()), v, Ack(id, accepted));
              hub.Abs() == h && callbacks.log == old(callbacks.log) + es
      ensures callbacks.log == old(callbacks.log) + if accepted || IsWaiting(old(hub.Abs()), v, id)
                                                    then [OnAck(v, id, accepted)] else []
      ensures IsWaiting(hub.Abs(), v, id) <==> accepted && IsWaiting(old(hub.Abs()), v, id)
    {
      if !accepted {
        var claimed := hub.Finish(v, id);
        if !claimed {
          return;
        }
      }
      callbacks.log := callbacks.log + [OnAck(v, id, accepted)];
    }

    method HandleLog(v: ServerId, id: CmdId, line: string)
      requires Valid()
      modifies callbacks
      ensures Valid() && hub.Abs() == old(hub.Abs())
      ensures callbacks.log == old(callbacks.log) + [OnLog(v, id, line)]
    {
      callbacks.log := callbacks.log + [OnLog(v, id, line)];
    }

    method HandleResult(v: ServerId, id: CmdId, result: RunResult)
      requires Valid()
      modifies hub.Objects(), callbacks
      ensures Valid()
      ensures var (h, es) := HandleIn(old(hub.Abs()), v, Result(id, result));
              hub.Abs() == h && callbacks.log == old(callbacks.log) + es
      ensures callbacks.log == old(callbacks.log) + if IsWaiting(old(hub.Abs()), v, id)
                                                    then [OnResult(v, id, result)] else []
      ensures !IsWaiting(hub.Abs(), v, id)
    {
      var claimed := hub.Finish(v, id);
      if claimed {
        callbacks.log := callbacks.log + [OnResult(v, id, result)];
      }
    }

    /** The handler's read loop over what arrives on its connection. */
    method ReadLoop(v: ServerId, inbox: seq<Incoming>)
      requires Valid()
      modifies hub.Objects(), callbacks
      ensures Valid()
      ensures var (h, es) := HandleAll(old(hub.Abs()), v, inbox);
              hub.Abs() == h && callbacks.log == old(callbacks.log) + es
    {
      var i := 0;
      ghost var fired: seq<Event> := [];
      assert inbox[0..] == inbox;
      assert forall es: seq<Event> :: fired + es == es;
      while i < |inbox|
        invariant 0 <= i <= |inbox| && Valid()
        invariant callbacks.log == old(callbacks.log) + fired
        invariant HandleAll(old(hub.Abs()), v, inbox) == After(fired, HandleAll(hub.Abs(), v, inbox[i..]))
        decreases |inbox| - i
      {
        ghost var h := hub.Abs();
        HandleNext(h, v, inbox, i, fired);
        if inbox[i].Broken? {
          return;
        }
        if inbox[i].Message? {
          Dispatch(v, inbox[i].msg);
          fired := fired + HandleIn(h, v, inbox[i].msg).1;
        }
        i := i + 1;
      }
    }

    method Dispatch(v: ServerId, m: Msg)
      requires Valid()
      modifies hub.Objects(), callbacks
      ensures Valid()
      ensures var (h, es) := HandleIn(old(hub.Abs()), v, m);
              hub.Abs() == h && callbacks.log == old(callbacks.log) + es
    {
      match m
      case Ack(id, accepted) => HandleAck(v, id, accepted);
      case Log(id, line) => HandleLog(v, id, line);
      case Result(id, result) => HandleResult(v, id, result);
    }
  }

  datatype Row = Row(owner: nat, hasDst: bool)

  datatype DeleteResult = Removed | NotFound | HasDst | StoreError

  /** The server service: rows, and the hub whose connection a deletion cuts. */
  class ServerService {
    var rows: map<ServerId, Row>
    const hub: AgentHub

    constructor (hub: AgentHub)
      ensures this.hub == hub && rows == map[]
    {
      this.hub, rows := hub, map[];
    }

    predicate Deletable(user: nat, v: ServerId)
      reads this
    {
      v in rows && rows[v].owner == user && !rows[v].hasDst
    }

    /** The repository's delete: one guarded statement, then a read to tell the refusals apart. */
    method DeleteRow(user: nat, v: ServerId, deleteUp: bool, readUp: bool) returns (r: DeleteResult)
      modifies this
      ensures rows == if r == Removed then old(rows) - {v} else old(rows)
      ensures r == Removed <==> deleteUp && old(Deletable(user, v))
      ensures r == NotFound <==> deleteUp && readUp && (v !in old(rows) || old(rows)[v].owner != user)
      ensures r == HasDst <==> deleteUp && readUp && v in old(rows) && old(rows)[v] == Row(user, true)
    {
      if !deleteUp {
        return StoreError;
      }
      if Deletable(user, v) {
        rows := rows - {v};
        return Removed;
      }
      if !readUp {
        return StoreError;
      }
      return if v in rows && rows[v].owner == user then HasDst else NotFound;
    }

    method Delete(user: nat, v: ServerId, deleteUp: bool, readUp: bool)
      returns (r: DeleteResult, ghost order: seq<CmdId>)
      requires hub.Valid()
      modifies this, hub, hub.Objects(), hub.callbacks
      ensures hub.Valid()
      ensures r == Removed <==> deleteUp && old(Deletable(user, v))
      ensures rows == if r == Removed then old(rows) - {v} else old(rows)
      ensures r == Removed ==> hub.Abs() == CloseIn(TakeOut(old(hub.Abs()), v), Current(old(hub.Abs()), v))
      ensures r == Removed ==> Lists(order, Waiting(old(hub.Abs()), v))
      ensures r != Removed ==> hub.Abs() == old(hub.Abs()) && order == []
      ensures hub.conns == if r == Removed then old(hub.conns) - {v} else old(hub.conns)
      ensures r == Removed && v in old(hub.conns) ==> old(hub.conns)[v].closed && old(hub.conns)[v].pending == {}
      ensures hub.callbacks.log == old(hub.callbacks.log) + Interruptions(v, order)
    {
      order := [];
      r := DeleteRow(user, v, deleteUp, readUp);
      if r == Removed {
        order := hub.Disconnect(v);
      }
    }
  }
}
