/**
 The agent hub under concurrency. Every critical section of `Hub`, every read or write of a server
 row and every callback is one step; steps of WebSocket handlers, server deletions and
 command senders interleave freely. A step that is not possible leaves the state as it is.

 The natural identities are used: a handler is named by its connection, a deletion by its
 server (a row is deleted at most once and ids are not reused), a sender by its command id.
 */
module HubModel {
  import opened Options

  type ServerId = nat
  type ConnId = nat
  type CmdId = nat

  /** What the agent reports about a script run. */
  datatype RunResult = RunResult(success: bool, exitCode: int)

  /** A message from the agent. */
  datatype Msg =
    | Ack(id: CmdId, accepted: bool)
    | Log(id: CmdId, line: string)
    | Result(id: CmdId, result: RunResult)

  /** `agentConn`: the commands sent on this connection and not yet answered, and whether it was closed. */
  datatype Conn = Conn(server: ServerId, pending: set<CmdId>, closed: bool)

  /** `Hub`: the current connection of each server, and every connection there ever was. */
  datatype Hub = Hub(conns: map<ServerId, ConnId>, agents: map<ConnId, Conn>)

  // ----- critical sections -----

  function Current(h: Hub, s: ServerId): Option<ConnId> {
    if s in h.conns then Some(h.conns[s]) else None
  }

  /** `Register` under `h.mu`: install a new connection; the previous one, if any, must then be closed. */
  function SwapIn(h: Hub, s: ServerId, c: ConnId): Hub {
    Hub(h.conns[s := c], h.agents[c := Conn(s, {}, false)])
  }

  /** `Unregister` and `Disconnect` under `h.mu`. */
  function TakeOut(h: Hub, s: ServerId): Hub {
    h.(conns := h.conns - {s})
  }

  /** `closeAgent` under `agent.mu`. */
  function DrainConn(h: Hub, c: ConnId): Hub
    requires c in h.agents
  {
    h.(agents := h.agents[c := h.agents[c].(pending := {}, closed := true)])
  }

  /** `Send` under `agent.mu`, when the write succeeded. */
  function AddPending(h: Hub, c: ConnId, id: CmdId): Hub
    requires c in h.agents
  {
    h.(agents := h.agents[c := h.agents[c].(pending := h.agents[c].pending + {id})])
  }

  /** `Finish` under `agent.mu`. */
  function DropPending(h: Hub, c: ConnId, id: CmdId): Hub
    requires c in h.agents
  {
    h.(agents := h.agents[c := h.agents[c].(pending := h.agents[c].pending - {id})])
  }

  // ----- threads -----

  /** A call of `closeAgent`: not yet inside, or reporting what it drained. */
  datatype Job = Drain(target: ConnId) | Reporting(target: ConnId, ids: set<CmdId>)

  datatype HandlerPc =
    | Authed
    | ClosingOld(job: Job)
    | Checking
    | Reading
    | Finishing(msg: Msg)
    | Holding(msg: Msg, found: ConnId)
    | Claimed(msg: Msg)
    | Leaving
    | ClosingOwn(job: Job)
    | Gone

  /** `passed` records that the handler's check after registration succeeded. */
  datatype Handler = Handler(server: ServerId, pc: HandlerPc, passed: bool)

  datatype DeleterPc = RowRemoved | ClosingTaken(job: Job) | Deleted

  datatype SenderPc = Looking | HoldingConn(conn: ConnId) | Sent(conn: ConnId) | SendFailed

  datatype Sender = Sender(server: ServerId, pc: SenderPc)

  /** A terminal callback: an interruption, or the answer message a handler claimed. */
  datatype Report = Interrupted(id: CmdId) | Answered(id: CmdId, conn: ConnId, msg: Msg)

  /** `used` lists the row ids ever created, `closings` the connections handed to `closeAgent`. */
  datatype State = State(
    rows: set<ServerId>, used: set<ServerId>, hub: Hub,
    handlers: map<ConnId, Handler>, deleters: map<ServerId, DeleterPc>, senders: map<CmdId, Sender>,
    reports: seq<Report>, closings: seq<ConnId>)

  datatype Closer = ByHandler(conn: ConnId) | ByDeleter(server: ServerId)

  datatype Step =
    | CreateRow(server: ServerId)
    | Arrive(conn: ConnId, server: ServerId)
    | Register(conn: ConnId)
    | CloseDrain(closer: Closer)
    | CloseReport(closer: Closer, id: CmdId)
    | CloseEnd(closer: Closer)
    | CheckRow(conn: ConnId, up: bool)
    | Receive(conn: ConnId, msg: Msg)
    | ReadError(conn: ConnId)
    | FinishLookup(conn: ConnId)
    | FinishCommit(conn: ConnId)
    | Fire(conn: ConnId)
    | Unregister(conn: ConnId)
    | DeleteRow(server: ServerId)
    | Disconnect(server: ServerId)
    | SendStart(id: CmdId, server: ServerId)
    | SendLookup(id: CmdId)
    | SendCommit(id: CmdId, wrote: bool)

  const START := State({}, {}, Hub(map[], map[]), map[], map[], map[], [], [])

  predicate At(s: State, c: ConnId, pc: HandlerPc) {
    c in s.handlers && s.handlers[c].pc == pc
  }

  function Go(s: State, c: ConnId, pc: HandlerPc): State
    requires c in s.handlers
  {
    s.(handlers := s.handlers[c := s.handlers[c].(pc := pc)])
  }

  function JobOf(s: State, k: Closer): Option<Job> {
    match k
    case ByHandler(c) =>
      if c !in s.handlers then None
      else if s.handlers[c].pc.ClosingOld? || s.handlers[c].pc.ClosingOwn? then Some(s.handlers[c].pc.job)
      else None
    case ByDeleter(v) =>
      if v in s.deleters && s.deleters[v].ClosingTaken? then Some(s.deleters[v].job) else None
  }

  function SetJob(s: State, k: Closer, job: Job): State
    requires JobOf(s, k).Some?
  {
    match k
    case ByHandler(c) =>
      Go(s, c, if s.handlers[c].pc.ClosingOld? then ClosingOld(job) else ClosingOwn(job))
    case ByDeleter(v) => s.(deleters := s.deleters[v := ClosingTaken(job)])
  }

  function EndJob(s: State, k: Closer): State
    requires JobOf(s, k).Some?
  {
    match k
    case ByHandler(c) => Go(s, c, if s.handlers[c].pc.ClosingOld? then Checking else Gone)
    case ByDeleter(v) => s.(deleters := s.deleters[v := Deleted])
  }

  // ----- one function per step -----

  function DoArrive(s: State, c: ConnId, v: ServerId): State {
    if c in s.handlers || v !in s.rows then s
    else s.(handlers := s.handlers[c := Handler(v, Authed, false)])
  }

  function DoRegister(s: State, c: ConnId): State {
    if !At(s, c, Authed) then s
    else
      var v := s.handlers[c].server;
      var s' := s.(hub := SwapIn(s.hub, v, c));
      match Current(s.hub, v)
      case Some(prev) => Go(s', c, ClosingOld(Drain(prev))).(closings := s.closings + [prev])
      case None => Go(s', c, Checking)
  }

  function DoDrain(s: State, k: Closer): State {
    match JobOf(s, k)
    case Some(Drain(t)) =>
      if t !in s.hub.agents then s
      else SetJob(s, k, Reporting(t, s.hub.agents[t].pending)).(hub := DrainConn(s.hub, t))
    case _ => s
  }

  function DoReport(s: State, k: Closer, id: CmdId): State {
    match JobOf(s, k)
    case Some(Reporting(t, ids)) =>
      if id !in ids then s
      else SetJob(s, k, Reporting(t, ids - {id})).(reports := s.reports + [Interrupted(id)])
    case _ => s
  }

  function DoEnd(s: State, k: Closer): State {
    match JobOf(s, k)
    case Some(Reporting(_, ids)) => if ids == {} then EndJob(s, k) else s
    case _ => s
  }

  function DoCheck(s: State, c: ConnId, up: bool): State {
    if !At(s, c, Checking) then s
    else if up && s.handlers[c].server in s.rows then
      s.(handlers := s.handlers[c := Handler(s.handlers[c].server, Reading, true)])
    else Go(s, c, Leaving)
  }

  /** An accepting ack or a log line only fires its callback; a rejecting ack or a result must be claimed first. */
  function DoReceive(s: State, c: ConnId, m: Msg): State {
    if !At(s, c, Reading) then s
    else if m.Log? || (m.Ack? && m.accepted) then s
    else Go(s, c, Finishing(m))
  }

  function DoFinishLookup(s: State, c: ConnId): State {
    if c !in s.handlers || !s.handlers[c].pc.Finishing? then s
    else
      match Current(s.hub, s.handlers[c].server)
      case Some(found) => Go(s, c, Holding(s.handlers[c].pc.msg, found))
      case None => Go(s, c, Reading)
  }

  function DoFinishCommit(s: State, c: ConnId): State {
    if c !in s.handlers || !s.handlers[c].pc.Holding? then s
    else
      var m, found := s.handlers[c].pc.msg, s.handlers[c].pc.found;
      if found in s.hub.agents && m.id in s.hub.agents[found].pending
      then Go(s, c, Claimed(m)).(hub := DropPending(s.hub, found, m.id))
      else Go(s, c, Reading)
  }

  function DoFire(s: State, c: ConnId): State {
    if c !in s.handlers || !s.handlers[c].pc.Claimed? then s
    else
      var m := s.handlers[c].pc.msg;
      Go(s, c, Reading).(reports := s.reports + [Answered(m.id, c, m)])
  }

  function DoUnregister(s: State, c: ConnId): State {
    if !At(s, c, Leaving) then s
    else
      var v := s.handlers[c].server;
      if Current(s.hub, v) == Some(c)
      then Go(s, c, ClosingOwn(Drain(c))).(hub := TakeOut(s.hub, v), closings := s.closings + [c])
      else Go(s, c, Gone)
  }

  function DoDeleteRow(s: State, v: ServerId): State {
    if v !in s.rows || v in s.deleters then s
    else s.(rows := s.rows - {v}, deleters := s.deleters[v := RowRemoved])
  }

  function DoDisconnect(s: State, v: ServerId): State {
    if v !in s.deleters || s.deleters[v] != RowRemoved then s
    else
      match Current(s.hub, v)
      case Some(c) => s.(hub := TakeOut(s.hub, v), closings := s.closings + [c],
                         deleters := s.deleters[v := ClosingTaken(Drain(c))])
      case None => s.(deleters := s.deleters[v := Deleted])
  }

  function DoSendLookup(s: State, id: CmdId): State {
    if id !in s.senders || s.senders[id].pc != Looking then s
    else
      match Current(s.hub, s.senders[id].server)
      case Some(c) => s.(senders := s.senders[id := s.senders[id].(pc := HoldingConn(c))])
      case None => s.(senders := s.senders[id := s.senders[id].(pc := SendFailed)])
  }

  function DoSendCommit(s: State, id: CmdId, wrote: bool): State {
    if id !in s.senders || !s.senders[id].pc.HoldingConn? then s
    else
      var c := s.senders[id].pc.conn;
      if wrote && c in s.hub.agents && !s.hub.agents[c].closed
      then s.(hub := AddPending(s.hub, c, id), senders := s.senders[id := s.senders[id].(pc := Sent(c))])
      else s.(senders := s.senders[id := s.senders[id].(pc := SendFailed)])
  }

  function Apply(s: State, e: Step): State {
    match e
    case CreateRow(v) => if v in s.used then s else s.(rows := s.rows + {v}, used := s.used + {v})
    case Arrive(c, v) => DoArrive(s, c, v)
    case Register(c) => DoRegister(s, c)
    case CloseDrain(k) => DoDrain(s, k)
    case CloseReport(k, id) => DoReport(s, k, id)
    case CloseEnd(k) => DoEnd(s, k)
    case CheckRow(c, up) => DoCheck(s, c, up)
    case Receive(c, m) => DoReceive(s, c, m)
    case ReadError(c) => if At(s, c, Reading) then Go(s, c, Leaving) else s
    case FinishLookup(c) => DoFinishLookup(s, c)
    case FinishCommit(c) => DoFinishCommit(s, c)
    case Fire(c) => DoFire(s, c)
    case Unregister(c) => DoUnregister(s, c)
    case DeleteRow(v) => DoDeleteRow(s, v)
    case Disconnect(v) => DoDisconnect(s, v)
    case SendStart(id, v) => if id in s.senders then s else s.(senders := s.senders[id := Sender(v, Looking)])
    case SendLookup(id) => DoSendLookup(s, id)
    case SendCommit(id, wrote) => DoSendCommit(s, id, wrote)
  }

  function Run(steps: seq<Step>): State {
    if steps == [] then START else Apply(Run(steps[..|steps| - 1]), steps[|steps| - 1])
  }

  function RunFrom(s: State, steps: seq<Step>): State {
    if steps == [] then s else Apply(RunFrom(s, steps[..|steps| - 1]), steps[|steps| - 1])
  }
}
