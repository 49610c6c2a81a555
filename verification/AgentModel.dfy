/**
 Server and agent end to end: the hub of `HubModel`, one FIFO channel per connection and
 direction, and the agent's command handlers, whose scripts are guarded by one executor lock
 per agent process.

 Nothing is assumed about delivery except order: a message that was written may never be read,
 and a write that reported failure may still have gone through. A write on a connection the
 agent has closed always fails and sends nothing.
 */
module AgentModel {
  import opened Options
  import opened HubModel

  type ProcId = nat

  datatype Action = Deploy | Init | Start | Stop | Update | Delete | Status | Unsupported

  /** A command as it reaches the agent; None is a payload that does not parse. */
  datatype Cmd = Cmd(id: CmdId, payload: Option<Action>)

  /** How waiting for the script ended: an exit code, or a failure that has none. */
  datatype Wait = Exited(code: int) | WaitFailed

  /** The executor's success rule. */
  function ResultOf(a: Action, w: Wait): RunResult {
    match w
    case Exited(code) => RunResult(if a == Status then code == 0 || code == 2 else code == 0, code)
    case WaitFailed => RunResult(false, -1)
  }

  const REFUSED := RunResult(false, -1)

  /** One of the two output readers of a running script. */
  datatype Reader = Ready | Writing(line: string) | WriteFailed | Ended

  datatype TaskPc =
    | Acking
    | AckFailed
    | Trying
    | Locked
    | Running(readers: seq<Reader>)
    | Replying(result: RunResult)
    | ReplyFailed(result: RunResult)
    | Done(result: RunResult)

  /** The lines each reader gave to `onLog`, in its order. */
  datatype Lines = Lines(out: seq<string>, err: seq<string>)

  const NO_LINES := Lines([], [])

  /**
   One run of `handleCommand`: `at` is the position of its command in the channel, `lines` every line
   given to `onLog`, `clean` whether no write of it failed, `ran` and `wait` whether its
   script was started and how it ended.
   */
  datatype Task = Task(
    conn: ConnId, at: nat, id: CmdId, action: Action, pc: TaskPc,
    lines: Lines, clean: bool, ran: bool, wait: Option<Wait>)

  /**
   `up` and `down` are everything ever written, `got` and `taken` how much of it was read; `shut` are
   the connections the agent closed, `locks` which task holds each process's executor;
   `starts` and `attempts` record script starts and ack or result writes, successful or not.
   */
  datatype Net = Net(
    hub: State,
    down: map<ConnId, seq<Cmd>>, taken: map<ConnId, nat>,
    up: map<ConnId, seq<Msg>>, got: map<ConnId, nat>,
    procs: map<ConnId, ProcId>, shut: set<ConnId>,
    locks: map<ProcId, nat>, tasks: seq<Task>,
    starts: seq<CmdId>, attempts: seq<Msg>)

  datatype NetStep =
    | HubStep(step: Step)
    | Connect(conn: ConnId, server: ServerId, proc: ProcId)
    | Send(id: CmdId, payload: Option<Action>, ok: bool, through: bool)
    | Deliver(conn: ConnId)
    | Take(conn: ConnId, ok: bool, through: bool)
    | SendAck(task: nat, ok: bool, through: bool)
    | CloseAfterAck(task: nat)
    | TryLock(task: nat)
    | Abort(task: nat)
    | StartScript(task: nat)
    | ReadLine(task: nat, reader: nat, line: string)
    | WriteLine(task: nat, reader: nat, ok: bool, through: bool)
    | CloseAfterLog(task: nat, reader: nat)
    | EndRead(task: nat, reader: nat)
    | WaitScript(task: nat, wait: Wait)
    | Reply(task: nat, ok: bool, through: bool)
    | CloseAfterReply(task: nat)

  const NET0 := Net(START, map[], map[], map[], map[], map[], {}, map[], [], [], [])

  predicate IsTask(n: Net, k: nat) {
    k < |n.tasks| && n.tasks[k].conn in n.up && n.tasks[k].conn in n.procs
  }

  function Put(n: Net, k: nat, t: Task): Net
    requires k < |n.tasks|
  {
    n.(tasks := n.tasks[k := t])
  }

  /** A write by the agent: the message is on its way, or it is not. */
  function Emit(n: Net, c: ConnId, m: Msg, ok: bool, through: bool): Net
    requires c in n.up
  {
    if c in n.shut || (!ok && !through) then n else n.(up := n.up[c := n.up[c] + [m]])
  }

  predicate Wrote(n: Net, c: ConnId, ok: bool) {
    ok && c !in n.shut
  }

  // ----- the two ends of a connection -----

  function DoConnect(n: Net, c: ConnId, v: ServerId, p: ProcId): Net {
    if c in n.hub.handlers || c in n.up || v !in n.hub.rows then n
    else
      n.(hub := DoArrive(n.hub, c, v), down := n.down[c := []], taken := n.taken[c := 0],
         up := n.up[c := []], got := n.got[c := 0], procs := n.procs[c := p])
  }

  /** `Send` reached its write on an open connection. */
  predicate Writes(s: State, id: CmdId) {
    && id in s.senders && s.senders[id].pc.HoldingConn?
    && s.senders[id].pc.conn in s.hub.agents && !s.hub.agents[s.senders[id].pc.conn].closed
  }

  function DoSend(n: Net, id: CmdId, payload: Option<Action>, ok: bool, through: bool): Net {
    var n' := n.(hub := DoSendCommit(n.hub, id, ok));
    if !Writes(n.hub, id) || (!ok && !through) || n.hub.senders[id].pc.conn !in n.down then n'
    else
      var c := n.hub.senders[id].pc.conn;
      n'.(down := n.down[c := n.down[c] + [Cmd(id, payload)]])
  }

  /** The server's read loop takes the next message of its connection. */
  function DoDeliver(n: Net, c: ConnId): Net {
    if c !in n.up || c !in n.got || |n.up[c]| <= n.got[c] || !At(n.hub, c, Reading) then n
    else n.(hub := DoReceive(n.hub, c, n.up[c][n.got[c]]), got := n.got[c := n.got[c] + 1])
  }

  /** The agent's read loop takes the next command: it is refused, or gets a task of its own. */
  function DoTake(n: Net, c: ConnId, ok: bool, through: bool): Net {
    if c !in n.up || c !in n.down || c !in n.taken || |n.down[c]| <= n.taken[c] then n
    else
      var cmd := n.down[c][n.taken[c]];
      var n' := n.(taken := n.taken[c := n.taken[c] + 1]);
      match cmd.payload
      case None => Emit(n', c, Ack(cmd.id, false), ok, through).(attempts := n.attempts + [Ack(cmd.id, false)])
      case Some(a) =>
        n'.(tasks := n.tasks + [Task(c, n.taken[c], cmd.id, a, Acking, NO_LINES, true, false, None)])
  }

  // ----- the command handler -----

  function DoSendAck(n: Net, k: nat, ok: bool, through: bool): Net {
    if !IsTask(n, k) || n.tasks[k].pc != Acking then n
    else
      var t := n.tasks[k];
      var m := Ack(t.id, true);
      var t' := if Wrote(n, t.conn, ok) then t.(pc := Trying) else t.(pc := AckFailed, clean := false);
      Put(Emit(n, t.conn, m, ok, through), k, t').(attempts := n.attempts + [m])
  }

  function DoCloseAfterAck(n: Net, k: nat): Net {
    if !IsTask(n, k) || n.tasks[k].pc != AckFailed then n
    else Put(n, k, n.tasks[k].(pc := Trying)).(shut := n.shut + {n.tasks[k].conn})
  }

  function DoTryLock(n: Net, k: nat): Net {
    if !IsTask(n, k) || n.tasks[k].pc != Trying then n
    else
      var p := n.procs[n.tasks[k].conn];
      if p in n.locks then Put(n, k, n.tasks[k].(pc := Replying(REFUSED)))
      else Put(n, k, n.tasks[k].(pc := Locked)).(locks := n.locks[p := k])
  }

  function Unlock(n: Net, k: nat): Net
    requires IsTask(n, k)
  {
    n.(locks := n.locks - {n.procs[n.tasks[k].conn]})
  }

  /** The arguments, a pipe or the start failed: no script ran. */
  function DoAbort(n: Net, k: nat): Net {
    if !IsTask(n, k) || n.tasks[k].pc != Locked then n
    else Put(Unlock(n, k), k, n.tasks[k].(pc := Replying(REFUSED)))
  }

  function DoStartScript(n: Net, k: nat): Net {
    if !IsTask(n, k) || n.tasks[k].pc != Locked || n.tasks[k].action == Unsupported then n
    else Put(n, k, n.tasks[k].(pc := Running([Ready, Ready]), ran := true)).(starts := n.starts + [n.tasks[k].id])
  }

  predicate ReaderAt(n: Net, k: nat, r: nat) {
    IsTask(n, k) && n.tasks[k].pc.Running? && r < |n.tasks[k].pc.readers|
  }

  function WithReader(t: Task, r: nat, reader: Reader): Task
    requires t.pc.Running? && r < |t.pc.readers|
  {
    t.(pc := Running(t.pc.readers[r := reader]))
  }

  /** Reader 0 reads the script's output, reader 1 its errors. */
  function Give(lines: Lines, r: nat, line: string): Lines {
    if r == 0 then lines.(out := lines.out + [line]) else lines.(err := lines.err + [line])
  }

  function DoReadLine(n: Net, k: nat, r: nat, line: string): Net {
    if !ReaderAt(n, k, r) || n.tasks[k].pc.readers[r] != Ready then n
    else Put(n, k, WithReader(n.tasks[k], r, Writing(line)).(lines := Give(n.tasks[k].lines, r, line)))
  }

  function DoWriteLine(n: Net, k: nat, r: nat, ok: bool, through: bool): Net {
    if !ReaderAt(n, k, r) || !n.tasks[k].pc.readers[r].Writing? then n
    else
      var t := n.tasks[k];
      var t' := if Wrote(n, t.conn, ok) then WithReader(t, r, Ready)
                else WithReader(t, r, WriteFailed).(clean := false);
      Put(Emit(n, t.conn, Log(t.id, t.pc.readers[r].line), ok, through), k, t')
  }

  function DoCloseAfterLog(n: Net, k: nat, r: nat): Net {
    if !ReaderAt(n, k, r) || n.tasks[k].pc.readers[r] != WriteFailed then n
    else Put(n, k, WithReader(n.tasks[k], r, Ready)).(shut := n.shut + {n.tasks[k].conn})
  }

  function DoEndRead(n: Net, k: nat, r: nat): Net {
    if !ReaderAt(n, k, r) || n.tasks[k].pc.readers[r] != Ready then n
    else Put(n, k, WithReader(n.tasks[k], r, Ended))
  }

  predicate AllEnded(readers: seq<Reader>) {
    forall i | 0 <= i < |readers| :: readers[i] == Ended
  }

  function DoWaitScript(n: Net, k: nat, w: Wait): Net {
    if !IsTask(n, k) || !n.tasks[k].pc.Running? || !AllEnded(n.tasks[k].pc.readers) then n
    else
      var t := n.tasks[k];
      Put(Unlock(n, k), k, t.(pc := Replying(ResultOf(t.action, w)), wait := Some(w)))
  }

  function DoReply(n: Net, k: nat, ok: bool, through: bool): Net {
    if !IsTask(n, k) || !n.tasks[k].pc.Replying? then n
    else
      var t := n.tasks[k];
      var res := t.pc.result;
      var m := Result(t.id, res);
      var t' := t.(pc := if Wrote(n, t.conn, ok) then Done(res) else ReplyFailed(res));
      Put(Emit(n, t.conn, m, ok, through), k, t').(attempts := n.attempts + [m])
  }

  function DoCloseAfterReply(n: Net, k: nat): Net {
    if !IsTask(n, k) || !n.tasks[k].pc.ReplyFailed? then n
    else Put(n, k, n.tasks[k].(pc := Done(n.tasks[k].pc.result))).(shut := n.shut + {n.tasks[k].conn})
  }

  /** Hub steps that happen on the server alone; the others come with a message or a connection. */
  predicate ServerOnly(e: Step) {
    !e.Arrive? && !e.Receive? && !e.SendCommit?
  }

  function Next(n: Net, e: NetStep): Net {
    match e
    case HubStep(step) => if ServerOnly(step) then n.(hub := Apply(n.hub, step)) else n
    case Connect(c, v, p) => DoConnect(n, c, v, p)
    case Send(id, payload, ok, through) => DoSend(n, id, payload, ok, through)
    case Deliver(c) => DoDeliver(n, c)
    case Take(c, ok, through) => DoTake(n, c, ok, through)
    case SendAck(k, ok, through) => DoSendAck(n, k, ok, through)
    case CloseAfterAck(k) => DoCloseAfterAck(n, k)
    case TryLock(k) => DoTryLock(n, k)
    case Abort(k) => DoAbort(n, k)
    case StartScript(k) => DoStartScript(n, k)
    case ReadLine(k, r, line) => DoReadLine(n, k, r, line)
    case WriteLine(k, r, ok, through) => DoWriteLine(n, k, r, ok, through)
    case CloseAfterLog(k, r) => DoCloseAfterLog(n, k, r)
    case EndRead(k, r) => DoEndRead(n, k, r)
    case WaitScript(k, w) => DoWaitScript(n, k, w)
    case Reply(k, ok, through) => DoReply(n, k, ok, through)
    case CloseAfterReply(k) => DoCloseAfterReply(n, k)
  }

  function RunNet(steps: seq<NetStep>): Net {
    if steps == [] then NET0 else Next(RunNet(steps[..|steps| - 1]), steps[|steps| - 1])
  }
}
