/** What every run of server, channels and agents keeps, and the end-to-end claims that follow. */
module AgentProofs {
  import opened Options
  import opened HubModel
  import opened AgentModel
  import H = HubProofs

  /** The messages about one command, in order. */
  ghost function Of(ms: seq<Msg>, id: CmdId): seq<Msg> {
    if ms == [] then []
    else Of(ms[..|ms| - 1], id) + if ms[|ms| - 1].id == id then [ms[|ms| - 1]] else []
  }

  /** The log lines among messages, in order. */
  ghost function LinesIn(ms: seq<Msg>): seq<string> {
    if ms == [] then []
    else LinesIn(ms[..|ms| - 1]) + if ms[|ms| - 1].Log? then [ms[|ms| - 1].line] else []
  }

  /** `all` is made of the lines of both readers, each reader's in its own order. */
  ghost predicate Interleaves(all: seq<string>, lines: Lines)
    decreases |all|
  {
    if all == [] then lines == NO_LINES
    else
      var rest, last, out, err := all[..|all| - 1], all[|all| - 1], lines.out, lines.err;
      || (out != [] && out[|out| - 1] == last && Interleaves(rest, Lines(out[..|out| - 1], err)))
      || (err != [] && err[|err| - 1] == last && Interleaves(rest, Lines(out, err[..|err| - 1])))
  }

  lemma InterleavesMore(all: seq<string>, lines: Lines, r: nat, line: string)
    requires Interleaves(all, lines)
    ensures Interleaves(all + [line], Give(lines, r, line))
  {
    var more := Give(lines, r, line);
    assert (all + [line])[..|all|] == all;
    if r == 0 {
      assert more.out[..|lines.out|] == lines.out;
    } else {
      assert more.err[..|lines.err|] == lines.err;
    }
  }

  lemma OfAppend(ms: seq<Msg>, m: Msg, id: CmdId)
    ensures Of(ms + [m], id) == Of(ms, id) + if m.id == id then [m] else []
  {
    assert (ms + [m])[..|ms|] == ms;
  }

  lemma LinesAppend(ms: seq<Msg>, m: Msg)
    ensures LinesIn(ms + [m]) == LinesIn(ms) + if m.Log? then [m.line] else []
  {
    assert (ms + [m])[..|ms|] == ms;
  }

  lemma {:induction false} OfMember(ms: seq<Msg>, id: CmdId, m: Msg)
    ensures m in Of(ms, id) <==> m in ms && m.id == id
    decreases |ms|
  {
    if ms != [] {
      OfMember(ms[..|ms| - 1], id, m);
      assert ms == ms[..|ms| - 1] + [ms[|ms| - 1]];
    }
  }

  lemma OfNone(ms: seq<Msg>, id: CmdId)
    requires forall m | m in ms :: m.id != id
    ensures Of(ms, id) == []
  {
    if Of(ms, id) != [] {
      OfMember(ms, id, Of(ms, id)[0]);
    }
  }

  /** Up to any occurrence of a message, the messages about its command are a strict prefix. */
  lemma {:induction false} OfPrefix(ms: seq<Msg>, r: nat)
    requires r < |ms|
    ensures var id := ms[r].id; Of(ms[..r], id) + [ms[r]] <= Of(ms, id)
    decreases |ms|
  {
    var id, last := ms[r].id, |ms| - 1;
    assert ms == ms[..last] + [ms[last]];
    OfAppend(ms[..last], ms[last], id);
    if r < last {
      OfPrefix(ms[..last], r);
      assert ms[..last][..r] == ms[..r];
    }
  }

  // ----- the invariant, one concern at a time -----

  ghost predicate ChannelsOk(n: Net) {
    && n.down.Keys == n.up.Keys && n.taken.Keys == n.up.Keys && n.got.Keys == n.up.Keys && n.procs.Keys == n.up.Keys
    && (forall c | c in n.up && c in n.got :: n.got[c] <= |n.up[c]|)
    && (forall c | c in n.down && c in n.taken :: n.taken[c] <= |n.down[c]|)
  }

  /** Position `i` of the channel towards the agent exists. */
  predicate Slot(n: Net, c: ConnId, i: int) {
    c in n.down && 0 <= i < |n.down[c]|
  }

  predicate TakenSlot(n: Net, c: ConnId, i: int) {
    Slot(n, c, i) && c in n.taken && i < n.taken[c]
  }

  predicate Finished(s: State, id: CmdId) {
    id in s.senders && (s.senders[id].pc.Sent? || s.senders[id].pc.SendFailed?)
  }

  /** A command is written at most once, on one connection, by a sender that is done. */
  ghost predicate RoutesOk(n: Net) {
    && (forall c, i | Slot(n, c, i) :: Finished(n.hub, n.down[c][i].id))
    && (forall c, i, d, j | Slot(n, c, i) && Slot(n, d, j) && n.down[c][i].id == n.down[d][j].id :: c == d && i == j)
  }

  /** The agent took command `id` from connection `c`. */
  ghost predicate Took(n: Net, c: ConnId, id: CmdId) {
    exists i :: TakenSlot(n, c, i) && n.down[c][i].id == id
  }

  ghost predicate HasTask(n: Net, c: ConnId, id: CmdId) {
    exists k :: 0 <= k < |n.tasks| && n.tasks[k].conn == c && n.tasks[k].id == id
  }

  /** Whatever the agent wrote or tried is about a command it took from that connection; results come from tasks. */
  ghost predicate OriginsOk(n: Net) {
    && (forall c, m | c in n.up && m in n.up[c] :: Took(n, c, m.id))
    && (forall c, m | c in n.up && m in n.up[c] && m.Result? :: HasTask(n, c, m.id))
    && (forall m | m in n.attempts :: exists c: ConnId :: Took(n, c, m.id))
  }

  ghost predicate Routed(n: Net, t: Task) {
    && t.conn in n.up && t.conn in n.procs
    && TakenSlot(n, t.conn, t.at) && n.down[t.conn][t.at] == Cmd(t.id, Some(t.action))
  }

  ghost predicate TasksOk(n: Net) {
    && (forall k | 0 <= k < |n.tasks| :: Routed(n, n.tasks[k]))
    && (forall j, k | 0 <= j < k < |n.tasks| :: n.tasks[j].conn != n.tasks[k].conn || n.tasks[j].at != n.tasks[k].at)
  }

  predicate Busy(pc: TaskPc) {
    pc.Locked? || pc.Running?
  }

  ghost predicate LocksOk(n: Net) {
    && (forall p | p in n.locks ::
          n.locks[p] < |n.tasks| && Busy(n.tasks[n.locks[p]].pc)
          && n.tasks[n.locks[p]].conn in n.procs && n.procs[n.tasks[n.locks[p]].conn] == p)
    && (forall k | 0 <= k < |n.tasks| && Busy(n.tasks[k].pc) && n.tasks[k].conn in n.procs ::
          n.procs[n.tasks[k].conn] in n.locks && n.locks[n.procs[n.tasks[k].conn]] == k)
  }

  ghost predicate NoResult(w: seq<Msg>) {
    forall i | 0 <= i < |w| :: !w[i].Result?
  }

  /** The accepting ack, then log lines only. */
  ghost predicate AckThenLogs(w: seq<Msg>, id: CmdId) {
    0 < |w| && w[0] == Ack(id, true) && forall i | 1 <= i < |w| :: w[i].Log?
  }

  /** The lines a reader is done with: all it gave out but the one it is writing. */
  function Passed(lines: seq<string>, r: Reader): seq<string> {
    if r.Writing? && lines != [] then lines[..|lines| - 1] else lines
  }

  /** A reader that is writing is writing the last line it gave out. */
  predicate InStep(lines: seq<string>, r: Reader) {
    r.Writing? ==> lines != [] && lines[|lines| - 1] == r.line
  }

  /** Of two readers' lines, exactly those passed on are in `all`. */
  ghost predicate PassedOn(all: seq<string>, lines: Lines, readers: seq<Reader>)
    requires |readers| == 2
  {
    && InStep(lines.out, readers[0]) && InStep(lines.err, readers[1])
    && Interleaves(all, Lines(Passed(lines.out, readers[0]), Passed(lines.err, readers[1])))
  }

  /** A complete reply: ack, exactly the lines given to `onLog`, then the result. */
  ghost predicate FullReply(w: seq<Msg>, id: CmdId, lines: Lines, res: RunResult) {
    && 0 < |w| && w[|w| - 1] == Result(id, res)
    && AckThenLogs(w[..|w| - 1], id) && Interleaves(LinesIn(w[..|w| - 1]), lines)
  }

  ghost predicate Logged(w: seq<Msg>, id: CmdId, lines: Lines) {
    AckThenLogs(w, id) && Interleaves(LinesIn(w), lines)
  }

  /** What is on the wire about a task, given its program counter. */
  ghost predicate WireOk(w: seq<Msg>, t: Task, shut: bool) {
    match t.pc
    case Acking => t.clean && w == [] && t.lines == NO_LINES
    case AckFailed => !t.clean && NoResult(w) && t.lines == NO_LINES
    case Trying => t.lines == NO_LINES && if t.clean then Logged(w, t.id, NO_LINES) else NoResult(w) && shut
    case Locked => t.lines == NO_LINES && if t.clean then Logged(w, t.id, NO_LINES) else NoResult(w) && shut
    case Running(rs) =>
      |rs| == 2 && if t.clean
                   then AckThenLogs(w, t.id) && PassedOn(LinesIn(w), t.lines, rs)
                        && rs[0] != WriteFailed && rs[1] != WriteFailed
                   else NoResult(w) && (shut || rs[0] == WriteFailed || rs[1] == WriteFailed)
    case Replying(_) => if t.clean then Logged(w, t.id, t.lines) else NoResult(w) && shut
    case ReplyFailed(res) =>
      if t.clean then Logged(w, t.id, t.lines) || FullReply(w, t.id, t.lines, res) else NoResult(w)
    case Done(res) =>
      if t.clean then Logged(w, t.id, t.lines) || FullReply(w, t.id, t.lines, res) else NoResult(w)
  }

  ghost predicate WiresOk(n: Net) {
    forall k | 0 <= k < |n.tasks| ::
      n.tasks[k].conn in n.up
      && WireOk(Of(n.up[n.tasks[k].conn], n.tasks[k].id), n.tasks[k], n.tasks[k].conn in n.shut)
  }

  /** What a task has tried to write besides log lines. */
  ghost function TriesAt(t: Task): seq<Msg> {
    match t.pc
    case Acking => []
    case ReplyFailed(res) => [Ack(t.id, true), Result(t.id, res)]
    case Done(res) => [Ack(t.id, true), Result(t.id, res)]
    case _ => [Ack(t.id, true)]
  }

  ghost predicate TriesOk(n: Net) {
    && (forall k | 0 <= k < |n.tasks| :: Of(n.attempts, n.tasks[k].id) == TriesAt(n.tasks[k]))
    && (forall c, i | TakenSlot(n, c, i) && n.down[c][i].payload == None ::
          Of(n.attempts, n.down[c][i].id) == [Ack(n.down[c][i].id, false)])
  }

  /** How a script has to end for its action to have succeeded. */
  predicate SuccessfulExit(a: Action, w: Wait) {
    w == Exited(0) || (a == Status && w == Exited(2))
  }

  /** The result says how the script ended: success exactly on a counting exit, and the script's own exit code. */
  predicate Truthful(t: Task, res: RunResult) {
    && (t.ran <==> t.wait.Some?)
    && (res.success <==> t.wait.Some? && SuccessfulExit(t.action, t.wait.value))
    && res.exitCode == if t.wait.Some? && t.wait.value.Exited? then t.wait.value.code else -1
  }

  /** Whether the script ran, and that what is reported is the script's own. */
  predicate RunOk(t: Task) {
    match t.pc
    case Running(_) => t.ran && t.wait == None
    case Replying(res) => Truthful(t, res)
    case ReplyFailed(res) => Truthful(t, res)
    case Done(res) => Truthful(t, res)
    case _ => !t.ran && t.wait == None
  }

  ghost predicate StartsOk(n: Net) {
    && (forall i, j | 0 <= i < j < |n.starts| :: n.starts[i] != n.starts[j])
    && (forall k | 0 <= k < |n.tasks| && n.tasks[k].ran :: n.tasks[k].id in n.starts)
    && (forall id | id in n.starts :: exists k :: 0 <= k < |n.tasks| && n.tasks[k].ran && n.tasks[k].id == id)
    && (forall k | 0 <= k < |n.tasks| :: RunOk(n.tasks[k]))
  }

  /** The message a handler is working on. */
  function InHand(pc: HandlerPc): Option<Msg> {
    if pc.Finishing? || pc.Holding? || pc.Claimed? then Some(pc.msg) else None
  }

  ghost predicate WasRead(n: Net, c: ConnId, m: Msg) {
    c in n.up && c in n.got && n.got[c] <= |n.up[c]| && exists r :: 0 <= r < n.got[c] && n.up[c][r] == m
  }

  /** Whatever a handler works on or answered with, it read from its own connection. */
  ghost predicate ReadsOk(n: Net) {
    && (forall c | c in n.hub.handlers && InHand(n.hub.handlers[c].pc).Some? ::
          WasRead(n, c, InHand(n.hub.handlers[c].pc).value))
    && (forall i | 0 <= i < |n.hub.reports| && n.hub.reports[i].Answered? ::
          n.hub.reports[i].msg.id == n.hub.reports[i].id && WasRead(n, n.hub.reports[i].conn, n.hub.reports[i].msg))
  }

  datatype Concern = Channels | Routes | Origins | Tasks | Locks | Wires | Tries | Starts | Reads

  ghost predicate Holds(c: Concern, n: Net) {
    match c
    case Channels => ChannelsOk(n)
    case Routes => RoutesOk(n)
    case Origins => OriginsOk(n)
    case Tasks => TasksOk(n)
    case Locks => LocksOk(n)
    case Wires => WiresOk(n)
    case Tries => TriesOk(n)
    case Starts => StartsOk(n)
    case Reads => ReadsOk(n)
  }

  ghost predicate Inv(n: Net) {
    forall c: Concern :: Holds(c, n)
  }

  lemma OpenInv(n: Net)
    requires Inv(n)
    ensures ChannelsOk(n) && RoutesOk(n) && OriginsOk(n) && TasksOk(n)
    ensures LocksOk(n) && WiresOk(n) && TriesOk(n) && StartsOk(n) && ReadsOk(n)
  {
    assert Holds(Channels, n) && Holds(Routes, n) && Holds(Origins, n) && Holds(Tasks, n);
    assert Holds(Locks, n) && Holds(Wires, n) && Holds(Tries, n) && Holds(Starts, n) && Holds(Reads, n);
  }

  lemma CloseInv(n: Net)
    requires ChannelsOk(n) && RoutesOk(n) && OriginsOk(n) && TasksOk(n)
    requires LocksOk(n) && WiresOk(n) && TriesOk(n) && StartsOk(n) && ReadsOk(n)
    ensures Inv(n)
  {
  }

  /** Two tasks never handle the same command. */
  lemma DistinctIds(n: Net, j: nat, k: nat)
    requires RoutesOk(n) && TasksOk(n) && j < |n.tasks| && k < |n.tasks| && j != k
    ensures n.tasks[j].id != n.tasks[k].id
  {
    assert Routed(n, n.tasks[j]) && Routed(n, n.tasks[k]);
  }

  lemma SameIdSameTask(n: Net, j: nat, k: nat)
    requires RoutesOk(n) && TasksOk(n) && j < |n.tasks| && k < |n.tasks|
    ensures n.tasks[j].id == n.tasks[k].id ==> j == k
  {
    if j != k {
      DistinctIds(n, j, k);
    }
  }

  // ----- a step of one task -----

  /** Task `k` moves to `t'`, perhaps writing about its own command; nothing else in the net is touched. */
  ghost predicate TaskStep(n: Net, n': Net, k: nat, t': Task) {
    && k < |n.tasks| && n'.tasks == n.tasks[k := t']
    && t'.conn == n.tasks[k].conn && t'.at == n.tasks[k].at && t'.id == n.tasks[k].id && t'.action == n.tasks[k].action
    && n'.hub == n.hub && n'.down == n.down && n'.taken == n.taken && n'.got == n.got && n'.procs == n.procs
    && t'.conn in n.up
    && (n'.up == n.up || exists m: Msg :: m.id == t'.id && n'.up == n.up[t'.conn := n.up[t'.conn] + [m]])
    && (n'.attempts == n.attempts || exists m: Msg :: m.id == t'.id && n'.attempts == n.attempts + [m])
    && n.shut <= n'.shut
  }

  lemma StepChannels(n: Net, n': Net, k: nat, t': Task)
    requires ChannelsOk(n) && TasksOk(n) && TaskStep(n, n', k, t')
    ensures ChannelsOk(n') && TasksOk(n')
  {
    forall x | 0 <= x < |n'.tasks| ensures Routed(n', n'.tasks[x]) {
      assert Routed(n, n.tasks[x]);
    }
  }

  lemma TookLater(n: Net, n': Net, c: ConnId, id: CmdId)
    requires Took(n, c, id) && c in n'.down && c in n'.taken && n.taken[c] <= n'.taken[c] && n.down[c] <= n'.down[c]
    ensures Took(n', c, id)
  {
    var i :| TakenSlot(n, c, i) && n.down[c][i].id == id;
    assert TakenSlot(n', c, i) && n'.down[c][i].id == id;
  }

  lemma HasTaskLater(n: Net, n': Net, c: ConnId, id: CmdId)
    requires HasTask(n, c, id) && |n.tasks| <= |n'.tasks|
    requires forall k | 0 <= k < |n.tasks| :: n'.tasks[k].conn == n.tasks[k].conn && n'.tasks[k].id == n.tasks[k].id
    ensures HasTask(n', c, id)
  {
    var k :| 0 <= k < |n.tasks| && n.tasks[k].conn == c && n.tasks[k].id == id;
    assert n'.tasks[k].conn == c && n'.tasks[k].id == id;
  }

  lemma TaskTook(n: Net, t: Task)
    requires Routed(n, t)
    ensures Took(n, t.conn, t.id)
  {
  }

  lemma StepOrigins(n: Net, n': Net, k: nat, t': Task)
    requires TasksOk(n) && OriginsOk(n) && TaskStep(n, n', k, t')
    ensures OriginsOk(n')
  {
    assert Routed(n, n.tasks[k]);
    TaskTook(n, n.tasks[k]);
    forall c: ConnId, id: CmdId | Took(n, c, id) ensures Took(n', c, id) {
      TookLater(n, n', c, id);
    }
    forall c, m | c in n'.up && m in n'.up[c]
      ensures Took(n', c, m.id) && (m.Result? ==> HasTask(n', c, m.id))
    {
      if m in n.up[c] {
        if m.Result? {
          HasTaskLater(n, n', c, m.id);
        }
      } else {
        assert c == t'.conn && m.id == t'.id;
        assert n'.tasks[k].conn == c && n'.tasks[k].id == m.id;
      }
    }
    forall m | m in n'.attempts ensures exists c: ConnId :: Took(n', c, m.id) {
      if m in n.attempts {
        var c: ConnId :| Took(n, c, m.id);
        assert Took(n', c, m.id);
      } else {
        assert Took(n', t'.conn, m.id);
      }
    }
  }

  lemma StepOthersOnWire(n: Net, n': Net, k: nat, t': Task, j: nat)
    requires RoutesOk(n) && TasksOk(n) && TaskStep(n, n', k, t') && j < |n.tasks| && j != k
    ensures n.tasks[j].conn in n.up && n.tasks[j].conn in n'.up
    ensures Of(n'.up[n.tasks[j].conn], n.tasks[j].id) == Of(n.up[n.tasks[j].conn], n.tasks[j].id)
    ensures Of(n'.attempts, n.tasks[j].id) == Of(n.attempts, n.tasks[j].id)
  {
    var t := n.tasks[j];
    assert Routed(n, t);
    DistinctIds(n, j, k);
    if n'.up != n.up {
      var m: Msg :| m.id == t'.id && n'.up == n.up[t'.conn := n.up[t'.conn] + [m]];
      OfAppend(n.up[t'.conn], m, t.id);
    }
    if n'.attempts != n.attempts {
      var m: Msg :| m.id == t'.id && n'.attempts == n.attempts + [m];
      OfAppend(n.attempts, m, t.id);
    }
  }

  lemma WireMonotone(w: seq<Msg>, t: Task, a: bool, b: bool)
    requires WireOk(w, t, a) && (a ==> b)
    ensures WireOk(w, t, b)
  {
  }

  lemma StepWires(n: Net, n': Net, k: nat, t': Task)
    requires RoutesOk(n) && TasksOk(n) && WiresOk(n) && TaskStep(n, n', k, t')
    requires WireOk(Of(n'.up[t'.conn], t'.id), t', t'.conn in n'.shut)
    ensures WiresOk(n')
  {
    forall j | 0 <= j < |n'.tasks|
      ensures n'.tasks[j].conn in n'.up
      ensures WireOk(Of(n'.up[n'.tasks[j].conn], n'.tasks[j].id), n'.tasks[j], n'.tasks[j].conn in n'.shut)
    {
      if j != k {
        StepOthersOnWire(n, n', k, t', j);
        var t := n.tasks[j];
        WireMonotone(Of(n.up[t.conn], t.id), t, t.conn in n.shut, t.conn in n'.shut);
      }
    }
  }

  lemma StepTries(n: Net, n': Net, k: nat, t': Task)
    requires RoutesOk(n) && TasksOk(n) && TriesOk(n) && TaskStep(n, n', k, t')
    requires Of(n'.attempts, t'.id) == TriesAt(t')
    ensures TriesOk(n')
  {
    forall j | 0 <= j < |n'.tasks| ensures Of(n'.attempts, n'.tasks[j].id) == TriesAt(n'.tasks[j]) {
      if j != k {
        StepOthersOnWire(n, n', k, t', j);
      }
    }
    forall c, i | TakenSlot(n', c, i) && n'.down[c][i].payload == None
      ensures Of(n'.attempts, n'.down[c][i].id) == [Ack(n'.down[c][i].id, false)]
    {
      assert TakenSlot(n, c, i) && Routed(n, n.tasks[k]);
      if n'.attempts != n.attempts {
        var m: Msg :| m.id == t'.id && n'.attempts == n.attempts + [m];
        OfAppend(n.attempts, m, n.down[c][i].id);
      }
    }
  }

  lemma ReadLater(n: Net, n': Net, c: ConnId, m: Msg)
    requires WasRead(n, c, m) && c in n'.up && c in n'.got && n.got[c] <= n'.got[c] <= |n'.up[c]|
    requires n.up[c] <= n'.up[c]
    ensures WasRead(n', c, m)
  {
    var r :| 0 <= r < n.got[c] && n.up[c][r] == m;
    assert n'.up[c][r] == m;
  }

  lemma StepReads(n: Net, n': Net, k: nat, t': Task)
    requires ReadsOk(n) && TaskStep(n, n', k, t')
    ensures ReadsOk(n')
  {
    forall c, m | WasRead(n, c, m) ensures WasRead(n', c, m) {
      ReadLater(n, n', c, m);
    }
  }

  lemma TaskStepKeeps(n: Net, n': Net, k: nat, t': Task)
    requires Inv(n) && TaskStep(n, n', k, t')
    requires WireOk(Of(n'.up[t'.conn], t'.id), t', t'.conn in n'.shut)
    requires Of(n'.attempts, t'.id) == TriesAt(t')
    requires LocksOk(n') && StartsOk(n')
    ensures Inv(n')
  {
    OpenInv(n);
    StepChannels(n, n', k, t');
    StepOrigins(n, n', k, t');
    StepWires(n, n', k, t');
    StepTries(n, n', k, t');
    StepReads(n, n', k, t');
    assert RoutesOk(n') by {
      SameRoutes(n, n');
    }
    CloseInv(n');
  }

  lemma SameRoutes(n: Net, n': Net)
    requires RoutesOk(n) && n'.down == n.down && n'.hub == n.hub
    ensures RoutesOk(n')
  {
    forall c, i | Slot(n', c, i) ensures Finished(n'.hub, n'.down[c][i].id) {
      assert Slot(n, c, i);
    }
    forall c, i, d, j | Slot(n', c, i) && Slot(n', d, j) && n'.down[c][i].id == n'.down[d][j].id
      ensures c == d && i == j
    {
      assert Slot(n, c, i) && Slot(n, d, j);
    }
  }

  lemma LocksFrame(n: Net, n': Net, k: nat, t': Task)
    requires LocksOk(n) && TaskStep(n, n', k, t') && n'.locks == n.locks && Busy(t'.pc) == Busy(n.tasks[k].pc)
    ensures LocksOk(n')
  {
  }

  lemma StartsFrame(n: Net, n': Net, k: nat, t': Task)
    requires StartsOk(n) && TaskStep(n, n', k, t') && n'.starts == n.starts
    requires t'.ran == n.tasks[k].ran && RunOk(t')
    ensures StartsOk(n')
  {
    forall id | id in n'.starts ensures exists j :: 0 <= j < |n'.tasks| && n'.tasks[j].ran && n'.tasks[j].id == id {
      var j :| 0 <= j < |n.tasks| && n.tasks[j].ran && n.tasks[j].id == id;
      assert n'.tasks[j].ran && n'.tasks[j].id == id;
    }
  }

  /** A step that neither takes nor frees the executor nor starts a script. */
  lemma PlainTaskStep(n: Net, n': Net, k: nat, t': Task)
    requires Inv(n) && TaskStep(n, n', k, t') && n'.locks == n.locks && n'.starts == n.starts
    requires Busy(t'.pc) == Busy(n.tasks[k].pc) && t'.ran == n.tasks[k].ran && RunOk(t')
    requires WireOk(Of(n'.up[t'.conn], t'.id), t', t'.conn in n'.shut)
    requires Of(n'.attempts, t'.id) == TriesAt(t')
    ensures Inv(n')
  {
    assert Holds(Locks, n) && Holds(Starts, n);
    LocksFrame(n, n', k, t');
    StartsFrame(n, n', k, t');
    TaskStepKeeps(n, n', k, t');
  }

  /** What the invariant says of one task. */
  lemma TaskFacts(n: Net, k: nat)
    requires Inv(n) && k < |n.tasks|
    ensures var t := n.tasks[k];
            && t.conn in n.up && t.conn in n.procs
            && WireOk(Of(n.up[t.conn], t.id), t, t.conn in n.shut)
            && Of(n.attempts, t.id) == TriesAt(t) && RunOk(t)
  {
    assert Holds(Wires, n) && Holds(Tries, n) && Holds(Starts, n) && Holds(Tasks, n);
    assert Routed(n, n.tasks[k]);
  }

  // ----- what each write does to the wire -----

  lemma AckOnWire(t: Task, shut: bool)
    requires WireOk([], t, shut) && t.pc == Acking
    ensures WireOk([Ack(t.id, true)], t.(pc := Trying), shut)
    ensures forall w | w == [] || w == [Ack(t.id, true)] :: WireOk(w, t.(pc := AckFailed, clean := false), shut)
  {
    LinesAppend([], Ack(t.id, true));
    assert [] + [Ack(t.id, true)] == [Ack(t.id, true)];
  }

  lemma MoreLogs(w: seq<Msg>, id: CmdId, line: string)
    requires AckThenLogs(w, id)
    ensures AckThenLogs(w + [Log(id, line)], id) && LinesIn(w + [Log(id, line)]) == LinesIn(w) + [line]
  {
    LinesAppend(w, Log(id, line));
  }

  lemma LinePassed(all: seq<string>, lines: Lines, readers: seq<Reader>, r: nat, line: string)
    requires |readers| == 2 && r < 2 && readers[r] == Writing(line) && PassedOn(all, lines, readers)
    ensures PassedOn(all + [line], lines, readers[r := Ready])
  {
    var passed := Lines(Passed(lines.out, readers[0]), Passed(lines.err, readers[1]));
    InterleavesMore(all, passed, r, line);
    if r == 0 {
      LastLine(lines.out, readers[0], line);
    } else {
      LastLine(lines.err, readers[1], line);
    }
  }

  lemma LastLine(lines: seq<string>, reader: Reader, line: string)
    requires reader == Writing(line) && InStep(lines, reader)
    ensures Passed(lines, reader) + [line] == lines
  {
  }

  lemma LineGiven(all: seq<string>, lines: Lines, readers: seq<Reader>, r: nat, line: string)
    requires |readers| == 2 && r < 2 && readers[r] == Ready && PassedOn(all, lines, readers)
    ensures PassedOn(all, Give(lines, r, line), readers[r := Writing(line)])
  {
    var more := Give(lines, r, line);
    assert r == 0 ==> more.out[..|more.out| - 1] == lines.out;
    assert r == 1 ==> more.err[..|more.err| - 1] == lines.err;
  }

  lemma LogOnWire(w: seq<Msg>, t: Task, r: nat, line: string, shut: bool)
    requires t.pc.Running? && WireOk(w, t, shut) && r < 2 && t.pc.readers[r] == Writing(line)
    ensures WireOk(w + [Log(t.id, line)], WithReader(t, r, Ready), shut)
  {
    if t.clean {
      MoreLogs(w, t.id, line);
      LinePassed(LinesIn(w), t.lines, t.pc.readers, r, line);
    }
  }

  lemma LineInHand(w: seq<Msg>, t: Task, r: nat, line: string, shut: bool)
    requires t.pc.Running? && WireOk(w, t, shut) && r < 2 && t.pc.readers[r] == Ready
    ensures WireOk(w, WithReader(t, r, Writing(line)).(lines := Give(t.lines, r, line)), shut)
  {
    if t.clean {
      LineGiven(LinesIn(w), t.lines, t.pc.readers, r, line);
    }
  }

  lemma FailedLogOnWire(w: seq<Msg>, t: Task, r: nat, shut: bool)
    requires t.pc.Running? && WireOk(w, t, shut) && r < 2 && t.pc.readers[r].Writing?
    ensures var failed := WithReader(t, r, WriteFailed).(clean := false);
            WireOk(w, failed, shut) && WireOk(w + [Log(t.id, t.pc.readers[r].line)], failed, shut)
  {
    assert t.pc.readers[r := WriteFailed][r] == WriteFailed;
    assert NoResult(w);
  }

  lemma ReplyOnWire(w: seq<Msg>, t: Task, shut: bool)
    requires t.pc.Replying? && WireOk(w, t, shut)
    ensures var res := t.pc.result;
            && WireOk(w, t.(pc := ReplyFailed(res)), shut)
            && (!shut ==> WireOk(w + [Result(t.id, res)], t.(pc := ReplyFailed(res)), shut))
            && (!shut ==> WireOk(w + [Result(t.id, res)], t.(pc := Done(res)), shut))
  {
    var w' := w + [Result(t.id, t.pc.result)];
    assert w'[..|w'| - 1] == w;
  }

  // ----- each step of the command handler -----

  lemma SendAckWire(n: Net, n': Net, k: nat, ok: bool, through: bool)
    requires IsTask(n, k) && n.tasks[k].pc == Acking && n' == DoSendAck(n, k, ok, through)
    requires WireOk(Of(n.up[n.tasks[k].conn], n.tasks[k].id), n.tasks[k], n.tasks[k].conn in n.shut)
    requires Of(n.attempts, n.tasks[k].id) == []
    ensures WireOk(Of(n'.up[n.tasks[k].conn], n.tasks[k].id), n'.tasks[k], n.tasks[k].conn in n'.shut)
    ensures Of(n'.attempts, n.tasks[k].id) == [Ack(n.tasks[k].id, true)]
  {
    var t := n.tasks[k];
    var m := Ack(t.id, true);
    AckOnWire(t, t.conn in n.shut);
    OfAppend(n.up[t.conn], m, t.id);
    OfAppend(n.attempts, m, t.id);
    assert [] + [m] == [m];
  }

  lemma SendAckShape(n: Net, n': Net, k: nat, ok: bool, through: bool)
    requires IsTask(n, k) && n.tasks[k].pc == Acking && n' == DoSendAck(n, k, ok, through)
    ensures TaskStep(n, n', k, n'.tasks[k]) && n'.locks == n.locks && n'.starts == n.starts
    ensures n'.tasks[k].ran == n.tasks[k].ran && (n'.tasks[k].pc == Trying || n'.tasks[k].pc == AckFailed)
  {
    var t, m := n.tasks[k], Ack(n.tasks[k].id, true);
    EmitShape(n, t.conn, m, ok, through);
    assert m.id == n'.tasks[k].id && n'.attempts == n.attempts + [m];
  }

  lemma EmitShape(n: Net, c: ConnId, m: Msg, ok: bool, through: bool)
    requires c in n.up
    ensures var n' := Emit(n, c, m, ok, through);
            n' == n.(up := n'.up) && (n'.up == n.up || n'.up == n.up[c := n.up[c] + [m]])
  {
  }

  lemma SendAckKeeps(n: Net, k: nat, ok: bool, through: bool)
    requires Inv(n)
    ensures Inv(DoSendAck(n, k, ok, through))
  {
    if IsTask(n, k) && n.tasks[k].pc == Acking {
      TaskFacts(n, k);
      var n' := DoSendAck(n, k, ok, through);
      SendAckReady(n, n', k, ok, through);
      SendAckOnWire(n, n', k, ok, through, n'.tasks[k]);
      PlainTaskStep(n, n', k, n'.tasks[k]);
    }
  }

  lemma SendAckOnWire(n: Net, n': Net, k: nat, ok: bool, through: bool, t': Task)
    requires IsTask(n, k) && n.tasks[k].pc == Acking && n' == DoSendAck(n, k, ok, through) && t' == n'.tasks[k]
    requires WireOk(Of(n.up[n.tasks[k].conn], n.tasks[k].id), n.tasks[k], n.tasks[k].conn in n.shut)
    requires Of(n.attempts, n.tasks[k].id) == TriesAt(n.tasks[k])
    ensures t'.conn in n'.up && WireOk(Of(n'.up[t'.conn], t'.id), t', t'.conn in n'.shut)
    ensures Of(n'.attempts, t'.id) == TriesAt(t')
  {
    SendAckWire(n, n', k, ok, through);
  }

  lemma SendAckReady(n: Net, n': Net, k: nat, ok: bool, through: bool)
    requires IsTask(n, k) && n.tasks[k].pc == Acking && n' == DoSendAck(n, k, ok, through) && RunOk(n.tasks[k])
    ensures var t' := n'.tasks[k];
            && TaskStep(n, n', k, t') && n'.locks == n.locks && n'.starts == n.starts
            && !Busy(t'.pc) && t'.ran == n.tasks[k].ran && RunOk(t') && TriesAt(t') == [Ack(t'.id, true)]
  {
    SendAckShape(n, n', k, ok, through);
  }

  lemma CloseAfterAckKeeps(n: Net, k: nat)
    requires Inv(n)
    ensures Inv(DoCloseAfterAck(n, k))
  {
    if IsTask(n, k) && n.tasks[k].pc == AckFailed {
      TaskFacts(n, k);
      var n' := DoCloseAfterAck(n, k);
      PlainTaskStep(n, n', k, n'.tasks[k]);
    }
  }

  lemma TakenLock(n: Net, n': Net, k: nat, t': Task)
    requires LocksOk(n) && TaskStep(n, n', k, t') && IsTask(n, k) && !Busy(n.tasks[k].pc) && Busy(t'.pc)
    requires n.procs[n.tasks[k].conn] !in n.locks && n'.locks == n.locks[n.procs[n.tasks[k].conn] := k]
    ensures LocksOk(n')
  {
  }

  lemma TryLockKeeps(n: Net, k: nat)
    requires Inv(n)
    ensures Inv(DoTryLock(n, k))
  {
    if IsTask(n, k) && n.tasks[k].pc == Trying {
      TaskFacts(n, k);
      var n' := DoTryLock(n, k);
      if n.procs[n.tasks[k].conn] in n.locks {
        PlainTaskStep(n, n', k, n'.tasks[k]);
      } else {
        assert Holds(Locks, n) && Holds(Starts, n);
        TakenLock(n, n', k, n'.tasks[k]);
        StartsFrame(n, n', k, n'.tasks[k]);
        TaskStepKeeps(n, n', k, n'.tasks[k]);
      }
    }
  }

  lemma UnlockLocks(n: Net, n': Net, k: nat, t': Task)
    requires LocksOk(n) && TaskStep(n, n', k, t') && IsTask(n, k) && Busy(n.tasks[k].pc) && !Busy(t'.pc)
    requires n'.locks == n.locks - {n.procs[n.tasks[k].conn]}
    ensures LocksOk(n')
  {
  }

  lemma AbortKeeps(n: Net, k: nat)
    requires Inv(n)
    ensures Inv(DoAbort(n, k))
  {
    if IsTask(n, k) && n.tasks[k].pc == Locked {
      TaskFacts(n, k);
      var n' := DoAbort(n, k);
      assert Holds(Locks, n) && Holds(Starts, n);
      UnlockLocks(n, n', k, n'.tasks[k]);
      StartsFrame(n, n', k, n'.tasks[k]);
      TaskStepKeeps(n, n', k, n'.tasks[k]);
    }
  }

  lemma StartScriptStarts(n: Net, n': Net, k: nat)
    requires StartsOk(n) && RoutesOk(n) && TasksOk(n) && IsTask(n, k) && n.tasks[k].pc == Locked
    requires n.tasks[k].action != Unsupported && n' == DoStartScript(n, k)
    ensures StartsOk(n')
  {
    var id := n.tasks[k].id;
    assert RunOk(n.tasks[k]);
    if id in n.starts {
      var j :| 0 <= j < |n.tasks| && n.tasks[j].ran && n.tasks[j].id == id;
      DistinctIds(n, j, k);
    }
    StartersRan(n, n', k);
  }

  lemma StartersRan(n: Net, n': Net, k: nat)
    requires StartsOk(n) && k < |n.tasks| && n'.starts == n.starts + [n.tasks[k].id]
    requires |n'.tasks| == |n.tasks| && n'.tasks[k].ran && n'.tasks[k].id == n.tasks[k].id
    requires forall j | 0 <= j < |n.tasks| && j != k :: n'.tasks[j] == n.tasks[j]
    ensures forall x | x in n'.starts :: exists j :: 0 <= j < |n'.tasks| && n'.tasks[j].ran && n'.tasks[j].id == x
  {
    forall x | x in n'.starts ensures exists j :: 0 <= j < |n'.tasks| && n'.tasks[j].ran && n'.tasks[j].id == x {
      if x == n.tasks[k].id {
        assert n'.tasks[k].ran && n'.tasks[k].id == x;
      } else {
        var j :| 0 <= j < |n.tasks| && n.tasks[j].ran && n.tasks[j].id == x;
        assert n'.tasks[j].ran && n'.tasks[j].id == x;
      }
    }
  }

  lemma StartScriptShape(n: Net, n': Net, k: nat)
    requires IsTask(n, k) && n.tasks[k].pc == Locked && n.tasks[k].action != Unsupported && n' == DoStartScript(n, k)
    requires WireOk(Of(n.up[n.tasks[k].conn], n.tasks[k].id), n.tasks[k], n.tasks[k].conn in n.shut)
    ensures TaskStep(n, n', k, n'.tasks[k]) && n'.locks == n.locks && Busy(n'.tasks[k].pc)
    ensures n'.up == n.up && n'.attempts == n.attempts && TriesAt(n'.tasks[k]) == TriesAt(n.tasks[k])
    ensures WireOk(Of(n'.up[n.tasks[k].conn], n.tasks[k].id), n'.tasks[k], n.tasks[k].conn in n'.shut)
  {
  }

  lemma StartScriptKeeps(n: Net, k: nat)
    requires Inv(n)
    ensures Inv(DoStartScript(n, k))
  {
    if IsTask(n, k) && n.tasks[k].pc == Locked && n.tasks[k].action != Unsupported {
      TaskFacts(n, k);
      var n' := DoStartScript(n, k);
      StartScriptShape(n, n', k);
      assert Holds(Locks, n) && Holds(Starts, n) && Holds(Routes, n) && Holds(Tasks, n);
      LocksFrame(n, n', k, n'.tasks[k]);
      StartScriptStarts(n, n', k);
      TaskStepKeeps(n, n', k, n'.tasks[k]);
    }
  }

  lemma ReadLineKeeps(n: Net, k: nat, r: nat, line: string)
    requires Inv(n)
    ensures Inv(DoReadLine(n, k, r, line))
  {
    if ReaderAt(n, k, r) && n.tasks[k].pc.readers[r] == Ready {
      TaskFacts(n, k);
      var t, n' := n.tasks[k], DoReadLine(n, k, r, line);
      LineInHand(Of(n.up[t.conn], t.id), t, r, line, t.conn in n.shut);
      PlainTaskStep(n, n', k, n'.tasks[k]);
    }
  }

  lemma WriteLineWire(n: Net, n': Net, k: nat, r: nat, ok: bool, through: bool)
    requires ReaderAt(n, k, r) && n.tasks[k].pc.readers[r].Writing? && n' == DoWriteLine(n, k, r, ok, through)
    requires WireOk(Of(n.up[n.tasks[k].conn], n.tasks[k].id), n.tasks[k], n.tasks[k].conn in n.shut)
    ensures WireOk(Of(n'.up[n.tasks[k].conn], n.tasks[k].id), n'.tasks[k], n.tasks[k].conn in n'.shut)
  {
    var t := n.tasks[k];
    if Wrote(n, t.conn, ok) {
      LogOnWire(Of(n.up[t.conn], t.id), t, r, t.pc.readers[r].line, t.conn in n.shut);
    } else {
      FailedLogOnWire(Of(n.up[t.conn], t.id), t, r, t.conn in n.shut);
    }
    OfAppend(n.up[t.conn], Log(t.id, t.pc.readers[r].line), t.id);
  }

  lemma WriteLineKeeps(n: Net, k: nat, r: nat, ok: bool, through: bool)
    requires Inv(n)
    ensures Inv(DoWriteLine(n, k, r, ok, through))
  {
    if ReaderAt(n, k, r) && n.tasks[k].pc.readers[r].Writing? {
      TaskFacts(n, k);
      var n' := DoWriteLine(n, k, r, ok, through);
      WriteLineWire(n, n', k, r, ok, through);
      PlainTaskStep(n, n', k, n'.tasks[k]);
    }
  }

  lemma CloseAfterLogKeeps(n: Net, k: nat, r: nat)
    requires Inv(n)
    ensures Inv(DoCloseAfterLog(n, k, r))
  {
    if ReaderAt(n, k, r) && n.tasks[k].pc.readers[r] == WriteFailed {
      TaskFacts(n, k);
      var n' := DoCloseAfterLog(n, k, r);
      PlainTaskStep(n, n', k, n'.tasks[k]);
    }
  }

  lemma EndReadKeeps(n: Net, k: nat, r: nat)
    requires Inv(n)
    ensures Inv(DoEndRead(n, k, r))
  {
    if ReaderAt(n, k, r) && n.tasks[k].pc.readers[r] == Ready {
      TaskFacts(n, k);
      var n' := DoEndRead(n, k, r);
      PlainTaskStep(n, n', k, n'.tasks[k]);
    }
  }

  lemma WaitScriptReady(n: Net, n': Net, k: nat, w: Wait)
    requires IsTask(n, k) && n.tasks[k].pc.Running? && AllEnded(n.tasks[k].pc.readers) && n' == DoWaitScript(n, k, w)
    requires RunOk(n.tasks[k]) && Of(n.attempts, n.tasks[k].id) == TriesAt(n.tasks[k])
    requires WireOk(Of(n.up[n.tasks[k].conn], n.tasks[k].id), n.tasks[k], n.tasks[k].conn in n.shut)
    ensures var t' := n'.tasks[k];
            && TaskStep(n, n', k, t') && n'.starts == n.starts && t'.ran == n.tasks[k].ran && RunOk(t')
            && n'.locks == n.locks - {n.procs[n.tasks[k].conn]} && !Busy(t'.pc)
            && WireOk(Of(n'.up[t'.conn], t'.id), t', t'.conn in n'.shut)
            && Of(n'.attempts, t'.id) == TriesAt(t')
  {
  }

  lemma WaitScriptKeeps(n: Net, k: nat, w: Wait)
    requires Inv(n)
    ensures Inv(DoWaitScript(n, k, w))
  {
    if IsTask(n, k) && n.tasks[k].pc.Running? && AllEnded(n.tasks[k].pc.readers) {
      TaskFacts(n, k);
      var n' := DoWaitScript(n, k, w);
      WaitScriptReady(n, n', k, w);
      assert Holds(Locks, n) && Holds(Starts, n);
      UnlockLocks(n, n', k, n'.tasks[k]);
      StartsFrame(n, n', k, n'.tasks[k]);
      TaskStepKeeps(n, n', k, n'.tasks[k]);
    }
  }

  lemma ReplyWire(n: Net, n': Net, k: nat, ok: bool, through: bool)
    requires IsTask(n, k) && n.tasks[k].pc.Replying? && n' == DoReply(n, k, ok, through)
    requires WireOk(Of(n.up[n.tasks[k].conn], n.tasks[k].id), n.tasks[k], n.tasks[k].conn in n.shut)
    ensures WireOk(Of(n'.up[n.tasks[k].conn], n.tasks[k].id), n'.tasks[k], n.tasks[k].conn in n'.shut)
  {
    var t := n.tasks[k];
    ReplyOnWire(Of(n.up[t.conn], t.id), t, t.conn in n.shut);
    OfAppend(n.up[t.conn], Result(t.id, t.pc.result), t.id);
  }

  lemma ReplyReady(n: Net, n': Net, k: nat, ok: bool, through: bool)
    requires IsTask(n, k) && n.tasks[k].pc.Replying? && n' == DoReply(n, k, ok, through) && RunOk(n.tasks[k])
    ensures var t', m := n'.tasks[k], Result(n.tasks[k].id, n.tasks[k].pc.result);
            && TaskStep(n, n', k, t') && n'.locks == n.locks && n'.starts == n.starts
            && !Busy(t'.pc) && t'.ran == n.tasks[k].ran && RunOk(t') && TriesAt(t') == [Ack(t'.id, true), m]
            && n'.attempts == n.attempts + [m]
  {
    var t, m := n.tasks[k], Result(n.tasks[k].id, n.tasks[k].pc.result);
    EmitShape(n, t.conn, m, ok, through);
    assert m.id == n'.tasks[k].id && n'.attempts == n.attempts + [m];
  }

  lemma ReplyKeeps(n: Net, k: nat, ok: bool, through: bool)
    requires Inv(n)
    ensures Inv(DoReply(n, k, ok, through))
  {
    if IsTask(n, k) && n.tasks[k].pc.Replying? {
      TaskFacts(n, k);
      var t, n' := n.tasks[k], DoReply(n, k, ok, through);
      OfAppend(n.attempts, Result(t.id, t.pc.result), t.id);
      ReplyReady(n, n', k, ok, through);
      ReplyWire(n, n', k, ok, through);
      PlainTaskStep(n, n', k, n'.tasks[k]);
    }
  }

  lemma CloseAfterReplyKeeps(n: Net, k: nat)
    requires Inv(n)
    ensures Inv(DoCloseAfterReply(n, k))
  {
    if IsTask(n, k) && n.tasks[k].pc.ReplyFailed? {
      TaskFacts(n, k);
      var n' := DoCloseAfterReply(n, k);
      PlainTaskStep(n, n', k, n'.tasks[k]);
    }
  }

  // ----- the two ends of a connection -----

  lemma GrowsReads(n: Net, n': Net)
    requires ReadsOk(n) && n'.hub == n.hub
    requires forall c | c in n.up && c in n.got ::
               c in n'.up && c in n'.got && n.up[c] <= n'.up[c] && n.got[c] <= n'.got[c] && n'.got[c] <= |n'.up[c]|
    ensures ReadsOk(n')
  {
    forall c, m | WasRead(n, c, m) ensures WasRead(n', c, m) {
      ReadLater(n, n', c, m);
    }
  }

  lemma GrowsOrigins(n: Net, n': Net)
    requires OriginsOk(n) && n'.attempts == n.attempts && |n.tasks| <= |n'.tasks| && n'.tasks[..|n.tasks|] == n.tasks
    requires forall c | c in n'.up :: (c in n.up && n'.up[c] == n.up[c]) || n'.up[c] == []
    requires forall c | c in n.down && c in n.taken ::
               c in n'.down && c in n'.taken && n.down[c] <= n'.down[c] && n.taken[c] <= n'.taken[c]
    ensures OriginsOk(n')
  {
    forall c: ConnId, id: CmdId | Took(n, c, id) ensures Took(n', c, id) {
      TookLater(n, n', c, id);
    }
    forall c, m | c in n'.up && m in n'.up[c] && m.Result? ensures HasTask(n', c, m.id) {
      forall k | 0 <= k < |n.tasks| ensures n'.tasks[k] == n.tasks[k] {
        assert n'.tasks[k] == n'.tasks[..|n.tasks|][k];
      }
      HasTaskLater(n, n', c, m.id);
    }
    forall m | m in n'.attempts ensures exists c: ConnId :: Took(n', c, m.id) {
      var c: ConnId :| Took(n, c, m.id);
      assert Took(n', c, m.id);
    }
  }

  lemma GrowsTasks(n: Net, n': Net)
    requires TasksOk(n) && n'.tasks == n.tasks
    requires forall c | c in n.up :: c in n'.up
    requires forall c | c in n.procs :: c in n'.procs && n'.procs[c] == n.procs[c]
    requires forall c | c in n.down && c in n.taken ::
               c in n'.down && c in n'.taken && n.down[c] <= n'.down[c] && n.taken[c] <= n'.taken[c]
    ensures TasksOk(n')
  {
    forall k | 0 <= k < |n'.tasks| ensures Routed(n', n'.tasks[k]) {
      var t := n.tasks[k];
      assert Routed(n, t);
      assert n'.down[t.conn][t.at] == n.down[t.conn][t.at];
    }
  }

  lemma ConnectKeeps(n: Net, c: ConnId, v: ServerId, p: ProcId)
    requires Inv(n)
    ensures Inv(DoConnect(n, c, v, p))
  {
    if !(c in n.hub.handlers || c in n.up || v !in n.hub.rows) {
      OpenInv(n);
      var n' := DoConnect(n, c, v, p);
      GrowsOrigins(n, n');
      GrowsTasks(n, n');
      ConnectAgent(n, n', c, v, p);
      ConnectEnds(n, n', c, v, p);
      CloseInv(n');
    }
  }

  lemma WiresFrame(n: Net, n': Net)
    requires WiresOk(n) && n'.shut == n.shut && |n.tasks| <= |n'.tasks| && n'.tasks[..|n.tasks|] == n.tasks
    requires forall k | 0 <= k < |n.tasks| && n.tasks[k].conn in n.up ::
               n.tasks[k].conn in n'.up
               && Of(n'.up[n.tasks[k].conn], n.tasks[k].id) == Of(n.up[n.tasks[k].conn], n.tasks[k].id)
    requires forall k | |n.tasks| <= k < |n'.tasks| ::
               n'.tasks[k].conn in n'.up
               && WireOk(Of(n'.up[n'.tasks[k].conn], n'.tasks[k].id), n'.tasks[k], n'.tasks[k].conn in n'.shut)
    ensures WiresOk(n')
  {
    forall k | 0 <= k < |n'.tasks|
      ensures n'.tasks[k].conn in n'.up
      ensures WireOk(Of(n'.up[n'.tasks[k].conn], n'.tasks[k].id), n'.tasks[k], n'.tasks[k].conn in n'.shut)
    {
      if k < |n.tasks| {
        assert n'.tasks[k] == n'.tasks[..|n.tasks|][k];
      }
    }
  }

  lemma LocksGrow(n: Net, n': Net)
    requires LocksOk(n) && n'.locks == n.locks && |n.tasks| <= |n'.tasks| && n'.tasks[..|n.tasks|] == n.tasks
    requires forall k | 0 <= k < |n.tasks| :: n.tasks[k].conn in n.procs
    requires forall c | c in n.procs :: c in n'.procs && n'.procs[c] == n.procs[c]
    requires forall k | |n.tasks| <= k < |n'.tasks| :: !Busy(n'.tasks[k].pc)
    ensures LocksOk(n')
  {
    forall k | 0 <= k < |n.tasks| ensures n'.tasks[k] == n.tasks[k] {
      assert n'.tasks[k] == n'.tasks[..|n.tasks|][k];
    }
  }

  lemma ConnectAgent(n: Net, n': Net, c: ConnId, v: ServerId, p: ProcId)
    requires TasksOk(n) && LocksOk(n) && WiresOk(n) && TriesOk(n) && StartsOk(n) && ChannelsOk(n)
    requires c !in n.hub.handlers && c !in n.up && v in n.hub.rows && n' == DoConnect(n, c, v, p)
    ensures LocksOk(n') && WiresOk(n') && TriesOk(n') && StartsOk(n')
  {
    TaskConns(n);
    LocksGrow(n, n');
    WiresFrame(n, n');
    ConnectTries(n, n');
    StartsSame(n, n');
  }

  lemma StartsSame(n: Net, n': Net)
    requires StartsOk(n) && n'.tasks == n.tasks && n'.starts == n.starts
    ensures StartsOk(n')
  {
    forall id | id in n'.starts ensures exists k :: 0 <= k < |n'.tasks| && n'.tasks[k].ran && n'.tasks[k].id == id {
      var k :| 0 <= k < |n.tasks| && n.tasks[k].ran && n.tasks[k].id == id;
      assert n'.tasks[k].ran && n'.tasks[k].id == id;
    }
  }

  lemma ConnectEnds(n: Net, n': Net, c: ConnId, v: ServerId, p: ProcId)
    requires ChannelsOk(n) && RoutesOk(n) && ReadsOk(n)
    requires c !in n.hub.handlers && c !in n.up && v in n.hub.rows && n' == DoConnect(n, c, v, p)
    ensures ChannelsOk(n') && RoutesOk(n') && ReadsOk(n')
  {
    ConnectChannels(n, n', c, v, p);
    ConnectRoutes(n, n', c);
    ConnectReads(n, n', c);
  }

  lemma ConnectChannels(n: Net, n': Net, c: ConnId, v: ServerId, p: ProcId)
    requires ChannelsOk(n) && c !in n.hub.handlers && c !in n.up && v in n.hub.rows && n' == DoConnect(n, c, v, p)
    ensures ChannelsOk(n')
    ensures forall x, i | Slot(n', x, i) :: Slot(n, x, i) && n'.down[x] == n.down[x]
  {
  }

  lemma TaskConns(n: Net)
    requires TasksOk(n)
    ensures forall k | 0 <= k < |n.tasks| :: n.tasks[k].conn in n.up && n.tasks[k].conn in n.procs
  {
    forall k | 0 <= k < |n.tasks| ensures n.tasks[k].conn in n.up && n.tasks[k].conn in n.procs {
      assert Routed(n, n.tasks[k]);
    }
  }

  lemma ConnectTries(n: Net, n': Net)
    requires TriesOk(n) && n'.tasks == n.tasks && n'.attempts == n.attempts
    requires forall x, i | TakenSlot(n', x, i) :: TakenSlot(n, x, i) && n'.down[x] == n.down[x]
    ensures TriesOk(n')
  {
  }

  lemma ConnectRoutes(n: Net, n': Net, c: ConnId)
    requires RoutesOk(n) && n'.hub.senders == n.hub.senders
    requires forall x, i | Slot(n', x, i) :: Slot(n, x, i) && n'.down[x] == n.down[x]
    ensures RoutesOk(n')
  {
  }

  lemma ConnectReads(n: Net, n': Net, c: ConnId)
    requires ReadsOk(n) && c !in n.hub.handlers && c !in n.up
    requires n'.hub.reports == n.hub.reports
    requires forall x | x in n'.hub.handlers && x != c :: x in n.hub.handlers && n'.hub.handlers[x] == n.hub.handlers[x]
    requires c in n'.hub.handlers && n'.hub.handlers[c].pc == Authed
    requires forall x | x in n.up :: x in n'.up && n'.up[x] == n.up[x]
    requires forall x | x in n.got && x in n.up :: x in n'.got && n'.got[x] == n.got[x]
    ensures ReadsOk(n')
  {
    forall x, m | WasRead(n, x, m) ensures WasRead(n', x, m) {
      ReadLater(n, n', x, m);
    }
  }

  lemma TakeTaskKeeps(n: Net, c: ConnId, a: Action, ok: bool, through: bool)
    requires Inv(n) && c in n.up && c in n.down && c in n.taken && n.taken[c] < |n.down[c]|
    requires n.down[c][n.taken[c]].payload == Some(a)
    ensures Inv(DoTake(n, c, ok, through))
  {
    OpenInv(n);
    var id := n.down[c][n.taken[c]].id;
    var n' := n.(taken := n.taken[c := n.taken[c] + 1],
                 tasks := n.tasks + [Task(c, n.taken[c], id, a, Acking, NO_LINES, true, false, None)]);
    assert DoTake(n, c, ok, through) == n';
    assert Slot(n, c, n.taken[c]);
    NewIdIsNew(n, c);
    TakeTaskShape(n, n', c, a, id);
    TakeTaskRest(n, n', c);
    CloseInv(n');
  }

  lemma TakeTaskRest(n: Net, n': Net, c: ConnId)
    requires RoutesOk(n) && OriginsOk(n) && ReadsOk(n) && ChannelsOk(n) && c in n.taken
    requires n' == n.(taken := n.taken[c := n.taken[c] + 1], tasks := n'.tasks)
    requires |n.tasks| <= |n'.tasks| && n'.tasks[..|n.tasks|] == n.tasks
    ensures RoutesOk(n') && OriginsOk(n') && ReadsOk(n')
  {
    SameRoutes(n, n');
    GrowsOrigins(n, n');
    GrowsReads(n, n');
  }

  /** The next command was never written about nor tried before. */
  lemma NewIdIsNew(n: Net, c: ConnId)
    requires RoutesOk(n) && OriginsOk(n) && TasksOk(n) && c in n.taken && Slot(n, c, n.taken[c])
    ensures var id := n.down[c][n.taken[c]].id;
            && Of(n.attempts, id) == [] && (forall x | x in n.up :: Of(n.up[x], id) == [])
            && (forall k | 0 <= k < |n.tasks| :: n.tasks[k].id != id)
            && (forall x, i | TakenSlot(n, x, i) :: n.down[x][i].id != id)
  {
    var id := n.down[c][n.taken[c]].id;
    forall x, i | TakenSlot(n, x, i) ensures n.down[x][i].id != id {
      assert Slot(n, x, i);
    }
    forall x: ConnId ensures !Took(n, x, id) {
    }
    OfNone(n.attempts, id);
    forall x | x in n.up ensures Of(n.up[x], id) == [] {
      OfNone(n.up[x], id);
    }
    forall k | 0 <= k < |n.tasks| ensures n.tasks[k].id != id {
      assert Routed(n, n.tasks[k]);
    }
  }

  lemma TakeTaskShape(n: Net, n': Net, c: ConnId, a: Action, id: CmdId)
    requires ChannelsOk(n) && TasksOk(n) && LocksOk(n) && WiresOk(n) && TriesOk(n) && StartsOk(n)
    requires c in n.up && c in n.down && c in n.taken && n.taken[c] < |n.down[c]|
    requires n.down[c][n.taken[c]] == Cmd(id, Some(a))
    requires Of(n.attempts, id) == [] && Of(n.up[c], id) == []
    requires n' == n.(taken := n.taken[c := n.taken[c] + 1],
                      tasks := n.tasks + [Task(c, n.taken[c], id, a, Acking, NO_LINES, true, false, None)])
    ensures ChannelsOk(n') && TasksOk(n') && LocksOk(n') && WiresOk(n') && TriesOk(n') && StartsOk(n')
  {
    assert n'.tasks[..|n.tasks|] == n.tasks;
    TakeTaskTasks(n, n', c, a, id);
    TakeTaskStarts(n, n');
    TakeTaskTries(n, n', c);
    TakeTaskWires(n, n', c);
  }

  lemma TakeTaskWires(n: Net, n': Net, c: ConnId)
    requires TasksOk(n) && LocksOk(n) && WiresOk(n) && c in n.up
    requires n'.up == n.up && n'.shut == n.shut && n'.procs == n.procs && n'.locks == n.locks
    requires |n'.tasks| == |n.tasks| + 1 && n'.tasks[..|n.tasks|] == n.tasks
    requires var t := n'.tasks[|n.tasks|];
             t.conn == c && t.pc == Acking && t.clean && t.lines == NO_LINES && Of(n.up[c], t.id) == []
    ensures LocksOk(n') && WiresOk(n')
  {
    TaskConns(n);
    LocksGrow(n, n');
    WiresFrame(n, n');
  }

  lemma TakeTaskTasks(n: Net, n': Net, c: ConnId, a: Action, id: CmdId)
    requires ChannelsOk(n) && TasksOk(n) && c in n.up && c in n.down && c in n.taken && n.taken[c] < |n.down[c]|
    requires n.down[c][n.taken[c]] == Cmd(id, Some(a))
    requires n' == n.(taken := n.taken[c := n.taken[c] + 1],
                      tasks := n.tasks + [Task(c, n.taken[c], id, a, Acking, NO_LINES, true, false, None)])
    ensures ChannelsOk(n') && TasksOk(n')
  {
    forall k | 0 <= k < |n'.tasks| ensures Routed(n', n'.tasks[k]) {
      if k < |n.tasks| {
        assert Routed(n, n.tasks[k]);
      }
    }
    forall j, k | 0 <= j < k < |n'.tasks|
      ensures n'.tasks[j].conn != n'.tasks[k].conn || n'.tasks[j].at != n'.tasks[k].at
    {
      assert Routed(n, n.tasks[j]);
    }
  }

  lemma TakeTaskStarts(n: Net, n': Net)
    requires StartsOk(n) && |n'.tasks| == |n.tasks| + 1 && n'.tasks[..|n.tasks|] == n.tasks && n'.starts == n.starts
    requires RunOk(n'.tasks[|n.tasks|]) && !n'.tasks[|n.tasks|].ran
    ensures StartsOk(n')
  {
    forall k | 0 <= k < |n.tasks| ensures n'.tasks[k] == n.tasks[k] {
      assert n'.tasks[..|n.tasks|][k] == n.tasks[k];
    }
    forall id | id in n'.starts ensures exists k :: 0 <= k < |n'.tasks| && n'.tasks[k].ran && n'.tasks[k].id == id {
      var k :| 0 <= k < |n.tasks| && n.tasks[k].ran && n.tasks[k].id == id;
      assert n'.tasks[k].ran && n'.tasks[k].id == id;
    }
  }

  lemma TakeTaskTries(n: Net, n': Net, c: ConnId)
    requires TriesOk(n) && |n'.tasks| == |n.tasks| + 1 && n'.tasks[..|n.tasks|] == n.tasks
    requires n'.attempts == n.attempts && n'.down == n.down && c in n.taken && n'.taken == n.taken[c := n.taken[c] + 1]
    requires c in n.down && n.taken[c] < |n.down[c]| && n.down[c][n.taken[c]].payload != None
    requires Of(n.attempts, n'.tasks[|n.tasks|].id) == [] && n'.tasks[|n.tasks|].pc == Acking
    ensures TriesOk(n')
  {
    TakenRefusals(n, n', c);
    forall k | 0 <= k < |n'.tasks| ensures Of(n'.attempts, n'.tasks[k].id) == TriesAt(n'.tasks[k]) {
      if k < |n.tasks| {
        assert n'.tasks[k] == n'.tasks[..|n.tasks|][k];
      }
    }
  }

  lemma TakenRefusals(n: Net, n': Net, c: ConnId)
    requires n'.attempts == n.attempts && n'.down == n.down && c in n.taken && n'.taken == n.taken[c := n.taken[c] + 1]
    requires c in n.down && n.taken[c] < |n.down[c]| && n.down[c][n.taken[c]].payload != None
    ensures forall x, i | TakenSlot(n', x, i) && n'.down[x][i].payload == None :: TakenSlot(n, x, i)
  {
  }

  // ----- refusing a command that does not parse -----

  /** The agent takes a command it cannot parse, and the refusal goes out or not. */
  ghost predicate Refuses(n: Net, n': Net, c: ConnId, id: CmdId) {
    && c in n.up && c in n.taken && Slot(n, c, n.taken[c]) && n.down[c][n.taken[c]] == Cmd(id, None)
    && n' == n.(taken := n.taken[c := n.taken[c] + 1], up := n'.up, attempts := n.attempts + [Ack(id, false)])
    && (n'.up == n.up || n'.up == n.up[c := n.up[c] + [Ack(id, false)]])
  }

  lemma RefuseWires(n: Net, n': Net, c: ConnId, id: CmdId)
    requires WiresOk(n) && TasksOk(n) && Refuses(n, n', c, id)
    requires forall k | 0 <= k < |n.tasks| :: n.tasks[k].id != id
    ensures WiresOk(n')
  {
    TaskConns(n);
    forall k | 0 <= k < |n.tasks|
      ensures Of(n'.up[n.tasks[k].conn], n.tasks[k].id) == Of(n.up[n.tasks[k].conn], n.tasks[k].id)
    {
      OfAppend(n.up[n.tasks[k].conn], Ack(id, false), n.tasks[k].id);
    }
    WiresFrame(n, n');
  }

  lemma RefuseTries(n: Net, n': Net, c: ConnId, id: CmdId)
    requires TriesOk(n) && Refuses(n, n', c, id) && Of(n.attempts, id) == []
    requires forall k | 0 <= k < |n.tasks| :: n.tasks[k].id != id
    requires forall x, i | TakenSlot(n, x, i) :: n.down[x][i].id != id
    ensures TriesOk(n')
  {
    forall x ensures Of(n'.attempts, x) == Of(n.attempts, x) + if x == id then [Ack(id, false)] else [] {
      OfAppend(n.attempts, Ack(id, false), x);
    }
    forall x, i | TakenSlot(n', x, i) && n'.down[x][i].payload == None
      ensures Of(n'.attempts, n'.down[x][i].id) == [Ack(n'.down[x][i].id, false)]
    {
      if !TakenSlot(n, x, i) {
        assert n'.down[x][i].id == id;
      }
    }
  }

  lemma RefuseOrigins(n: Net, n': Net, c: ConnId, id: CmdId)
    requires OriginsOk(n) && Refuses(n, n', c, id)
    ensures OriginsOk(n')
  {
    forall x: ConnId, y: CmdId | Took(n, x, y) ensures Took(n', x, y) {
      TookLater(n, n', x, y);
    }
    assert TakenSlot(n', c, n.taken[c]);
    assert Took(n', c, id);
    forall x, m | x in n'.up && m in n'.up[x]
      ensures Took(n', x, m.id) && (m.Result? ==> HasTask(n', x, m.id))
    {
      if m in n.up[x] {
        if m.Result? {
          HasTaskLater(n, n', x, m.id);
        }
      } else {
        assert x == c && m == Ack(id, false);
      }
    }
    forall m | m in n'.attempts ensures exists x: ConnId :: Took(n', x, m.id) {
      if m in n.attempts {
        var x: ConnId :| Took(n, x, m.id);
        assert Took(n', x, m.id);
      }
    }
  }

  lemma RefuseEnds(n: Net, n': Net, c: ConnId, id: CmdId)
    requires ChannelsOk(n) && RoutesOk(n) && ReadsOk(n) && Refuses(n, n', c, id)
    ensures ChannelsOk(n') && RoutesOk(n') && ReadsOk(n')
  {
    SameRoutes(n, n');
    GrowsReads(n, n');
  }

  lemma RefuseAgent(n: Net, n': Net, c: ConnId, id: CmdId)
    requires TasksOk(n) && LocksOk(n) && StartsOk(n) && Refuses(n, n', c, id)
    ensures TasksOk(n') && LocksOk(n') && StartsOk(n')
  {
    GrowsTasks(n, n');
    StartsSame(n, n');
    TaskConns(n);
    LocksGrow(n, n');
  }

  lemma RefuseKeeps(n: Net, n': Net, c: ConnId, id: CmdId)
    requires Inv(n) && Refuses(n, n', c, id)
    ensures Inv(n')
  {
    OpenInv(n);
    NewIdIsNew(n, c);
    RefuseWires(n, n', c, id);
    RefuseTries(n, n', c, id);
    RefuseOrigins(n, n', c, id);
    RefuseEnds(n, n', c, id);
    RefuseAgent(n, n', c, id);
    CloseInv(n');
  }

  lemma TakeKeeps(n: Net, c: ConnId, ok: bool, through: bool)
    requires Inv(n)
    ensures Inv(DoTake(n, c, ok, through))
  {
    if c in n.up && c in n.down && c in n.taken && n.taken[c] < |n.down[c]| {
      var cmd := n.down[c][n.taken[c]];
      match cmd.payload
      case None => RefuseKeeps(n, DoTake(n, c, ok, through), c, cmd.id);
      case Some(a) => TakeTaskKeeps(n, c, a, ok, through);
    }
  }

  // ----- the server's side -----

  /** Only the hub changes, and nothing the agent side relies on is taken back. */
  ghost predicate ServerMoves(n: Net, n': Net) {
    && n' == n.(hub := n'.hub)
    && (forall id | Finished(n.hub, id) :: Finished(n'.hub, id))
  }

  lemma ServerMovesKeep(n: Net, n': Net)
    requires Inv(n) && ServerMoves(n, n') && ReadsOk(n')
    ensures Inv(n')
  {
    OpenInv(n);
    assert RoutesOk(n') by {
      RoutesLater(n, n');
    }
    forall c: ConnId, id: CmdId ensures Took(n', c, id) == Took(n, c, id) {
      TookSame(n, n', c, id);
    }
    ServerMovesRest(n, n');
    CloseInv(n');
  }

  lemma TookSame(n: Net, n': Net, c: ConnId, id: CmdId)
    requires n'.down == n.down && n'.taken == n.taken
    ensures Took(n', c, id) == Took(n, c, id)
  {
    if Took(n, c, id) {
      var i :| TakenSlot(n, c, i) && n.down[c][i].id == id;
      assert TakenSlot(n', c, i);
    }
    if Took(n', c, id) {
      var i :| TakenSlot(n', c, i) && n'.down[c][i].id == id;
      assert TakenSlot(n, c, i);
    }
  }

  lemma RoutesLater(n: Net, n': Net)
    requires RoutesOk(n) && n'.down == n.down && (forall id | Finished(n.hub, id) :: Finished(n'.hub, id))
    ensures RoutesOk(n')
  {
    forall c, i | Slot(n', c, i) ensures Finished(n'.hub, n'.down[c][i].id) {
      assert Slot(n, c, i);
    }
    forall c, i, d, j | Slot(n', c, i) && Slot(n', d, j) && n'.down[c][i].id == n'.down[d][j].id
      ensures c == d && i == j
    {
      assert Slot(n, c, i) && Slot(n, d, j);
    }
  }

  lemma ServerMovesRest(n: Net, n': Net)
    requires ChannelsOk(n) && OriginsOk(n) && TasksOk(n) && LocksOk(n) && WiresOk(n) && TriesOk(n) && StartsOk(n)
    requires n' == n.(hub := n'.hub)
    ensures ChannelsOk(n') && OriginsOk(n') && TasksOk(n') && LocksOk(n') && WiresOk(n') && TriesOk(n') && StartsOk(n')
  {
    GrowsOrigins(n, n');
    GrowsTasks(n, n');
    StartsSame(n, n');
    ConnectTries(n, n');
    TaskConns(n);
    WiresFrame(n, n');
  }

  /** How a step of the server alone treats messages in hand and reports. */
  ghost predicate HandsStay(s: State, s': State) {
    && (forall c | c in s'.handlers && InHand(s'.handlers[c].pc).Some? ::
          c in s.handlers && InHand(s.handlers[c].pc) == InHand(s'.handlers[c].pc))
    && (s'.reports == s.reports
        || (exists id :: s'.reports == s.reports + [Interrupted(id)])
        || (exists c, m :: At(s, c, Claimed(m)) && s'.reports == s.reports + [Answered(m.id, c, m)]))
  }

  lemma CloserHands(s: State, k: Closer, id: CmdId)
    ensures HandsStay(s, DoDrain(s, k)) && HandsStay(s, DoReport(s, k, id)) && HandsStay(s, DoEnd(s, k))
  {
  }

  lemma FinishHands(s: State, c: ConnId)
    ensures HandsStay(s, DoFinishLookup(s, c)) && HandsStay(s, DoFinishCommit(s, c)) && HandsStay(s, DoFire(s, c))
  {
    if c in s.handlers && s.handlers[c].pc.Claimed? {
      assert At(s, c, Claimed(s.handlers[c].pc.msg));
    }
  }

  lemma HandlerHands(s: State, c: ConnId, up: bool)
    ensures HandsStay(s, DoRegister(s, c)) && HandsStay(s, DoCheck(s, c, up)) && HandsStay(s, DoUnregister(s, c))
  {
  }

  lemma ServerStepHands(s: State, e: Step)
    requires ServerOnly(e)
    ensures HandsStay(s, Apply(s, e))
  {
    match e
    case Register(c) => HandlerHands(s, c, true);
    case CheckRow(c, up) => HandlerHands(s, c, up);
    case Unregister(c) => HandlerHands(s, c, true);
    case CloseDrain(k) => CloserHands(s, k, 0);
    case CloseReport(k, id) => CloserHands(s, k, id);
    case CloseEnd(k) => CloserHands(s, k, 0);
    case FinishLookup(c) => FinishHands(s, c);
    case FinishCommit(c) => FinishHands(s, c);
    case Fire(c) => FinishHands(s, c);
    case _ => OutsideHands(s, e);
  }

  lemma OutsideHands(s: State, e: Step)
    requires e.CreateRow? || e.ReadError? || e.DeleteRow? || e.Disconnect? || e.SendStart? || e.SendLookup?
    ensures HandsStay(s, Apply(s, e))
  {
  }

  lemma ServerStepSenders(s: State, e: Step)
    requires ServerOnly(e)
    ensures forall id | Finished(s, id) :: Finished(Apply(s, e), id)
  {
    match e
    case Register(_) =>
    case CloseDrain(_) =>
    case CloseReport(_, _) =>
    case CloseEnd(_) =>
    case _ =>
  }

  lemma HandsStayReads(n: Net, n': Net)
    requires ReadsOk(n) && n' == n.(hub := n'.hub) && HandsStay(n.hub, n'.hub)
    ensures ReadsOk(n')
  {
    forall c, m | WasRead(n, c, m) ensures WasRead(n', c, m) {
    }
    forall i | 0 <= i < |n'.hub.reports| && n'.hub.reports[i].Answered?
      ensures n'.hub.reports[i].msg.id == n'.hub.reports[i].id
      ensures WasRead(n', n'.hub.reports[i].conn, n'.hub.reports[i].msg)
    {
      if i < |n.hub.reports| {
        assert n'.hub.reports[i] == n.hub.reports[i];
      } else {
        var c, m :| At(n.hub, c, Claimed(m)) && n'.hub.reports == n.hub.reports + [Answered(m.id, c, m)];
        assert InHand(n.hub.handlers[c].pc) == Some(m);
        assert WasRead(n, c, m);
      }
    }
  }

  lemma HubStepKeeps(n: Net, e: Step)
    requires Inv(n) && ServerOnly(e)
    ensures Inv(n.(hub := Apply(n.hub, e)))
  {
    var n' := n.(hub := Apply(n.hub, e));
    assert Holds(Reads, n);
    ServerStepHands(n.hub, e);
    ServerStepSenders(n.hub, e);
    HandsStayReads(n, n');
    ServerMovesKeep(n, n');
  }

  lemma DeliverKeeps(n: Net, c: ConnId)
    requires Inv(n)
    ensures Inv(DoDeliver(n, c))
  {
    if c in n.up && c in n.got && n.got[c] < |n.up[c]| && At(n.hub, c, Reading) {
      var mid := n.(got := n.got[c := n.got[c] + 1]);
      GotKeeps(n, mid, c);
      var n' := mid.(hub := DoReceive(n.hub, c, n.up[c][n.got[c]]));
      assert DoDeliver(n, c) == n';
      assert mid.up[c][n.got[c]] == n.up[c][n.got[c]];
      assert WasRead(mid, c, n.up[c][n.got[c]]);
      assert Holds(Reads, mid);
      ReceiveReads(mid, n', c, n.up[c][n.got[c]]);
      ServerMovesKeep(mid, n');
    }
  }

  lemma GotKeeps(n: Net, n': Net, c: ConnId)
    requires Inv(n) && c in n.up && c in n.got && n.got[c] < |n.up[c]| && n' == n.(got := n.got[c := n.got[c] + 1])
    ensures Inv(n')
  {
    OpenInv(n);
    GrowsReads(n, n');
    GrowsOrigins(n, n');
    GrowsTasks(n, n');
    GotRest(n, n', c);
    CloseInv(n');
  }

  lemma GotRest(n: Net, n': Net, c: ConnId)
    requires ChannelsOk(n) && RoutesOk(n) && TasksOk(n) && LocksOk(n) && WiresOk(n) && TriesOk(n) && StartsOk(n)
    requires c in n.up && c in n.got && n.got[c] < |n.up[c]| && n' == n.(got := n.got[c := n.got[c] + 1])
    ensures ChannelsOk(n') && RoutesOk(n') && LocksOk(n') && WiresOk(n') && TriesOk(n') && StartsOk(n')
  {
    SameRoutes(n, n');
    StartsSame(n, n');
    ConnectTries(n, n');
    TaskConns(n);
    WiresFrame(n, n');
  }

  lemma ReceiveReads(n: Net, n': Net, c: ConnId, m: Msg)
    requires ReadsOk(n) && WasRead(n, c, m) && n' == n.(hub := DoReceive(n.hub, c, m))
    ensures ReadsOk(n')
  {
    forall x, y | WasRead(n, x, y) ensures WasRead(n', x, y) {
    }
    forall x | x in n'.hub.handlers && InHand(n'.hub.handlers[x].pc).Some?
      ensures WasRead(n', x, InHand(n'.hub.handlers[x].pc).value)
    {
      if x != c || n'.hub.handlers[x].pc == n.hub.handlers[x].pc {
        assert WasRead(n, x, InHand(n.hub.handlers[x].pc).value);
      }
    }
  }

  lemma SendKeeps(n: Net, id: CmdId, payload: Option<Action>, ok: bool, through: bool)
    requires Inv(n)
    ensures Inv(DoSend(n, id, payload, ok, through))
  {
    var mid := n.(hub := DoSendCommit(n.hub, id, ok));
    assert Holds(Reads, n);
    HandsStayReads(n, mid);
    ServerMovesKeep(n, mid);
    if Writes(n.hub, id) && (ok || through) && n.hub.senders[id].pc.conn in n.down {
      var c := n.hub.senders[id].pc.conn;
      var n' := mid.(down := n.down[c := n.down[c] + [Cmd(id, payload)]]);
      assert DoSend(n, id, payload, ok, through) == n';
      assert Holds(Routes, n);
      forall x, i | Slot(mid, x, i) ensures mid.down[x][i].id != id {
        assert Slot(n, x, i);
      }
      PushKeeps(mid, n', c, Cmd(id, payload));
    }
  }

  /** A new command goes down a channel. */
  lemma PushKeeps(n: Net, n': Net, c: ConnId, cmd: Cmd)
    requires Inv(n) && c in n.down && n' == n.(down := n.down[c := n.down[c] + [cmd]])
    requires Finished(n.hub, cmd.id) && forall x, i | Slot(n, x, i) :: n.down[x][i].id != cmd.id
    ensures Inv(n')
  {
    OpenInv(n);
    PushRoutes(n, n', c, cmd);
    PushTaken(n, n', c, cmd);
    PushGrows(n, n', c, cmd);
    PushRest(n, n');
    CloseInv(n');
  }

  lemma PushGrows(n: Net, n': Net, c: ConnId, cmd: Cmd)
    requires ChannelsOk(n) && OriginsOk(n) && TasksOk(n) && ReadsOk(n)
    requires c in n.down && n' == n.(down := n.down[c := n.down[c] + [cmd]])
    ensures OriginsOk(n') && TasksOk(n') && ReadsOk(n')
  {
    GrowsOrigins(n, n');
    GrowsTasks(n, n');
    GrowsReads(n, n');
  }

  lemma PushRoutes(n: Net, n': Net, c: ConnId, cmd: Cmd)
    requires RoutesOk(n) && c in n.down && n' == n.(down := n.down[c := n.down[c] + [cmd]])
    requires Finished(n.hub, cmd.id) && forall x, i | Slot(n, x, i) :: n.down[x][i].id != cmd.id
    ensures RoutesOk(n')
  {
    forall x, i | Slot(n', x, i)
      ensures if Slot(n, x, i) then n'.down[x][i] == n.down[x][i]
              else x == c && i == |n.down[c]| && n'.down[x][i] == cmd
    {
    }
    forall x, i, y, j | Slot(n', x, i) && Slot(n', y, j) && n'.down[x][i].id == n'.down[y][j].id
      ensures x == y && i == j
    {
      assert Slot(n, x, i) == Slot(n, y, j);
    }
  }

  lemma PushTaken(n: Net, n': Net, c: ConnId, cmd: Cmd)
    requires ChannelsOk(n) && TriesOk(n) && c in n.down && n' == n.(down := n.down[c := n.down[c] + [cmd]])
    ensures ChannelsOk(n') && TriesOk(n')
  {
    forall x, i | TakenSlot(n', x, i) ensures TakenSlot(n, x, i) && n'.down[x][i] == n.down[x][i] {
    }
  }

  lemma PushRest(n: Net, n': Net)
    requires TasksOk(n) && LocksOk(n) && WiresOk(n) && StartsOk(n) && n' == n.(down := n'.down)
    ensures LocksOk(n') && WiresOk(n') && StartsOk(n')
  {
    StartsSame(n, n');
    TaskConns(n);
    WiresFrame(n, n');
  }

  // ----- every run -----

  lemma NextKeeps(n: Net, e: NetStep)
    requires Inv(n)
    ensures Inv(Next(n, e))
  {
    match e
    case HubStep(step) => if ServerOnly(step) { HubStepKeeps(n, step); }
    case Connect(c, v, p) => ConnectKeeps(n, c, v, p);
    case Send(id, payload, ok, through) => SendKeeps(n, id, payload, ok, through);
    case Deliver(c) => DeliverKeeps(n, c);
    case Take(c, ok, through) => TakeKeeps(n, c, ok, through);
    case SendAck(k, ok, through) => SendAckKeeps(n, k, ok, through);
    case CloseAfterAck(k) => CloseAfterAckKeeps(n, k);
    case TryLock(k) => TryLockKeeps(n, k);
    case Abort(k) => AbortKeeps(n, k);
    case StartScript(k) => StartScriptKeeps(n, k);
    case ReadLine(k, r, line) => ReadLineKeeps(n, k, r, line);
    case WriteLine(k, r, ok, through) => WriteLineKeeps(n, k, r, ok, through);
    case CloseAfterLog(k, r) => CloseAfterLogKeeps(n, k, r);
    case EndRead(k, r) => EndReadKeeps(n, k, r);
    case WaitScript(k, w) => WaitScriptKeeps(n, k, w);
    case Reply(k, ok, through) => ReplyKeeps(n, k, ok, through);
    case CloseAfterReply(k) => CloseAfterReplyKeeps(n, k);
  }

  lemma {:induction false} RunInv(steps: seq<NetStep>)
    ensures Inv(RunNet(steps))
    decreases |steps|
  {
    if steps != [] {
      RunInv(steps[..|steps| - 1]);
      NextKeeps(RunNet(steps[..|steps| - 1]), steps[|steps| - 1]);
    }
  }

  /** Every run of the net moves the hub through a run of its own, so all hub theorems apply. */
  lemma {:induction false} HubRunsOn(steps: seq<NetStep>) returns (hubSteps: seq<Step>)
    ensures RunNet(steps).hub == HubModel.Run(hubSteps)
    decreases |steps|
  {
    if steps == [] {
      hubSteps := [];
    } else {
      var n, e := RunNet(steps[..|steps| - 1]), steps[|steps| - 1];
      var before := HubRunsOn(steps[..|steps| - 1]);
      var step := HubStepOf(n, e);
      if step.Some? {
        hubSteps := before + [step.value];
        assert hubSteps[..|before|] == before;
        HubFollows(n, e);
      } else {
        hubSteps := before;
        HubFollows(n, e);
      }
    }
  }

  /** The hub step inside a step of the net, if any. */
  function HubStepOf(n: Net, e: NetStep): Option<Step> {
    match e
    case HubStep(step) => if ServerOnly(step) then Some(step) else None
    case Connect(c, v, _) => if c in n.hub.handlers || c in n.up || v !in n.hub.rows then None else Some(Arrive(c, v))
    case Send(id, _, ok, _) => Some(SendCommit(id, ok))
    case Deliver(c) =>
      if c !in n.up || c !in n.got || |n.up[c]| <= n.got[c] || !At(n.hub, c, Reading) then None
      else Some(Receive(c, n.up[c][n.got[c]]))
    case _ => None
  }

  lemma HubFollows(n: Net, e: NetStep)
    ensures var step := HubStepOf(n, e);
            Next(n, e).hub == if step.Some? then Apply(n.hub, step.value) else n.hub
  {
    match e
    case HubStep(_) =>
    case Connect(_, _, _) =>
    case Send(_, _, _, _) =>
    case Deliver(_) =>
    case Take(_, _, _) =>
    case _ => TaskStepsSpareHub(n, e);
  }

  lemma TaskStepsSpareHub(n: Net, e: NetStep)
    requires !e.HubStep? && !e.Connect? && !e.Send? && !e.Deliver? && !e.Take?
    ensures Next(n, e).hub == n.hub
  {
  }

  // ----- theorems -----

  /** With a result on the wire, its handler wrote everything cleanly and this is its result. */
  lemma ResultPinsTask(w: seq<Msg>, t: Task, m: Msg, shut: bool)
    requires WireOk(w, t, shut) && m in w && m.Result?
    ensures t.clean && (t.pc.ReplyFailed? || t.pc.Done?) && m == Result(t.id, t.pc.result)
    ensures FullReply(w, t.id, t.lines, t.pc.result)
  {
    var i :| 0 <= i < |w| && w[i] == m;
    if t.clean && (t.pc.ReplyFailed? || t.pc.Done?) && FullReply(w, t.id, t.lines, t.pc.result) {
      var logs := w[..|w| - 1];
      assert forall j | 0 <= j < |logs| :: w[j] == logs[j] && !logs[j].Result?;
    }
  }

  lemma ReplyComesFromTask(n: Net, c: ConnId, m: Msg) returns (k: nat)
    requires Inv(n) && c in n.up && m in n.up[c] && m.Result?
    ensures k < |n.tasks| && n.tasks[k].conn == c && n.tasks[k].id == m.id
    ensures var t := n.tasks[k];
            && (t.pc.ReplyFailed? || t.pc.Done?) && m == Result(t.id, t.pc.result)
            && FullReply(Of(n.up[c], t.id), t.id, t.lines, t.pc.result)
  {
    assert Holds(Origins, n) && Holds(Wires, n);
    assert HasTask(n, c, m.id);
    k :| k < |n.tasks| && n.tasks[k].conn == c && n.tasks[k].id == m.id;
    OfMember(n.up[c], m.id, m);
    ResultPinsTask(Of(n.up[c], m.id), n.tasks[k], m, c in n.shut);
  }

  /** Before the result at position `r`: the ack, then exactly the lines given to `onLog`. */
  lemma BeforeTheResult(ms: seq<Msg>, r: nat, id: CmdId, lines: Lines, res: RunResult)
    requires r < |ms| && ms[r] == Result(id, res) && FullReply(Of(ms, id), id, lines, res)
    ensures Logged(Of(ms[..r], id), id, lines)
  {
    OfPrefix(ms, r);
    var w, before := Of(ms, id), Of(ms[..r], id);
    assert w[|before|] == ms[r];
    assert forall j | 0 <= j < |w| - 1 :: w[..|w| - 1][j] == w[j] && !w[j].Result?;
    assert before == w[..|w| - 1];
  }

  /** The server saw, before this result, the accepting ack and exactly the lines given to `onLog`. */
  ghost predicate ToldInOrder(n: Net, c: ConnId, m: Msg, lines: Lines) {
    && c in n.up && c in n.got
    && exists r :: 0 <= r < |n.up[c]| && r < n.got[c] && n.up[c][r] == m && Logged(Of(n.up[c][..r], m.id), m.id, lines)
  }

  /** The handler of a command, its script and what the server had read before this report. */
  ghost predicate ComesFrom(n: Net, i: nat, k: nat)
    requires i < |n.hub.reports| && n.hub.reports[i].Answered?
  {
    var report := n.hub.reports[i];
    && k < |n.tasks| && n.tasks[k].id == report.id && n.tasks[k].conn == report.conn
    && (forall j | 0 <= j < |n.tasks| && n.tasks[j].id == report.id :: j == k)
    && (n.tasks[k].ran <==> report.id in n.starts)
    && (forall a, b | 0 <= a < |n.starts| && 0 <= b < |n.starts| && n.starts[a] == n.starts[b] :: a == b)
    && ToldInOrder(n, report.conn, report.msg, n.tasks[k].lines)
  }

  /**
   End-to-end truth: whenever the server fires `OnResult` for a command, one handler took that command,
   its script was started at most once, and before the result the server had read, on the
   same connection, the accepting ack and exactly the log lines given to `onLog`, each
   reader's in its own order. The result claims success exactly when the script was
   started and ended with an exit code that counts, and carries the script's own exit code.
   */
  lemma ResultIsTrue(steps: seq<NetStep>, i: nat) returns (k: nat)
    requires var reports := RunNet(steps).hub.reports;
             i < |reports| && reports[i].Answered? && reports[i].msg.Result?
    ensures var n := RunNet(steps);
            var result := n.hub.reports[i].msg.result;
            && ComesFrom(n, i, k)
            && var t := n.tasks[k];
               && (result.success <==> t.ran && t.wait.Some? && SuccessfulExit(t.action, t.wait.value))
               && result.exitCode == if t.wait.Some? && t.wait.value.Exited? then t.wait.value.code else -1
  {
    RunInv(steps);
    k := ResultTask(RunNet(steps), i);
  }

  lemma ResultTask(n: Net, i: nat) returns (k: nat)
    requires Inv(n) && i < |n.hub.reports| && n.hub.reports[i].Answered? && n.hub.reports[i].msg.Result?
    ensures ComesFrom(n, i, k) && Truthful(n.tasks[k], n.hub.reports[i].msg.result)
  {
    assert Holds(Reads, n) && Holds(Starts, n) && Holds(Routes, n) && Holds(Tasks, n);
    var report := n.hub.reports[i];
    var c, m := report.conn, report.msg;
    assert WasRead(n, c, m);
    var r :| 0 <= r < n.got[c] && n.up[c][r] == m;
    k := ReplyComesFromTask(n, c, m);
    BeforeTheResult(n.up[c], r, m.id, n.tasks[k].lines, n.tasks[k].pc.result);
    assert RunOk(n.tasks[k]);
    forall j: nat | j < |n.tasks| ensures n.tasks[j].id == report.id ==> j == k {
      SameIdSameTask(n, j, k);
    }
    if !n.tasks[k].ran {
      NotRanNotStarted(n, k);
    }
  }

  /** In particular a reported success is a script that was started exactly once and ended as its action asks. */
  lemma SuccessIsTrue(steps: seq<NetStep>, i: nat) returns (k: nat)
    requires var reports := RunNet(steps).hub.reports;
             i < |reports| && reports[i].Answered? && reports[i].msg.Result? && reports[i].msg.result.success
    ensures var n := RunNet(steps);
            && ComesFrom(n, i, k) && n.hub.reports[i].id in n.starts
            && n.tasks[k].wait.Some? && SuccessfulExit(n.tasks[k].action, n.tasks[k].wait.value)
  {
    k := ResultIsTrue(steps, i);
  }

  /** Every handler that is over reports its script truthfully, whatever became of the connection. */
  lemma ResultsAreExact(steps: seq<NetStep>, k: nat)
    requires k < |RunNet(steps).tasks| && RunNet(steps).tasks[k].pc.Done?
    ensures var t := RunNet(steps).tasks[k];
            && (t.pc.result.success <==> t.ran && t.wait.Some? && SuccessfulExit(t.action, t.wait.value))
            && t.pc.result.exitCode == if t.wait.Some? && t.wait.value.Exited? then t.wait.value.code else -1
  {
    RunInv(steps);
    assert Holds(Starts, RunNet(steps));
    assert RunOk(RunNet(steps).tasks[k]);
  }

  /** Agent exclusivity: of one agent process, at most one script runs at any time. */
  lemma OneScriptAtATime(steps: seq<NetStep>, j: nat, k: nat)
    requires var n := RunNet(steps);
             && j < |n.tasks| && k < |n.tasks| && n.tasks[j].pc.Running? && n.tasks[k].pc.Running?
             && n.tasks[j].conn in n.procs && n.tasks[k].conn in n.procs
             && n.procs[n.tasks[j].conn] == n.procs[n.tasks[k].conn]
    ensures j == k
  {
    RunInv(steps);
    assert Holds(Locks, RunNet(steps));
  }

  /** Each command starts at most one script, and only one whose task holds the executor. */
  lemma OneStartPerCommand(steps: seq<NetStep>)
    ensures var n := RunNet(steps);
            && (forall i, j | 0 <= i < j < |n.starts| :: n.starts[i] != n.starts[j])
            && (forall j, k | 0 <= j < k < |n.tasks| :: n.tasks[j].id != n.tasks[k].id)
  {
    RunInv(steps);
    var n := RunNet(steps);
    assert Holds(Starts, n) && Holds(Routes, n) && Holds(Tasks, n);
    forall j, k | 0 <= j < k < |n.tasks| ensures n.tasks[j].id != n.tasks[k].id {
      DistinctIds(n, j, k);
    }
  }

  /** A task that went on to its reply without having run a script. */
  predicate Refused(t: Task) {
    && !t.ran
    && (t.pc.Replying? || t.pc.ReplyFailed? || t.pc.Done?) && t.pc.result == REFUSED
  }

  /** Task `k` is where it was, or moved on with its reply. */
  ghost predicate StillRefused(n: Net, n': Net, k: nat) {
    && k < |n.tasks| && k < |n'.tasks|
    && Refused(n.tasks[k]) && Refused(n'.tasks[k]) && n'.tasks[k].id == n.tasks[k].id
  }

  lemma RefusedThroughTaskSteps(n: Net, e: NetStep, k: nat)
    requires k < |n.tasks| && Refused(n.tasks[k])
    requires e.TryLock? || e.Abort? || e.StartScript? || e.WaitScript?
    ensures StillRefused(n, Next(n, e), k)
  {
  }

  lemma RefusedThroughWrites(n: Net, e: NetStep, k: nat)
    requires k < |n.tasks| && Refused(n.tasks[k])
    requires e.SendAck? || e.CloseAfterAck? || e.Reply? || e.CloseAfterReply?
    ensures StillRefused(n, Next(n, e), k)
  {
  }

  lemma RefusedThroughReaders(n: Net, e: NetStep, k: nat)
    requires k < |n.tasks| && Refused(n.tasks[k])
    requires e.ReadLine? || e.WriteLine? || e.CloseAfterLog? || e.EndRead?
    ensures StillRefused(n, Next(n, e), k)
  {
  }

  lemma RefusedThroughChannels(n: Net, e: NetStep, k: nat)
    requires k < |n.tasks| && Refused(n.tasks[k])
    requires e.HubStep? || e.Connect? || e.Send? || e.Deliver? || e.Take?
    ensures StillRefused(n, Next(n, e), k)
  {
  }

  lemma RefusedStays(n: Net, e: NetStep, k: nat)
    requires k < |n.tasks| && Refused(n.tasks[k])
    ensures StillRefused(n, Next(n, e), k)
  {
    if e.HubStep? || e.Connect? || e.Send? || e.Deliver? || e.Take? {
      RefusedThroughChannels(n, e, k);
    } else if e.ReadLine? || e.WriteLine? || e.CloseAfterLog? || e.EndRead? {
      RefusedThroughReaders(n, e, k);
    } else if e.TryLock? || e.Abort? || e.StartScript? || e.WaitScript? {
      RefusedThroughTaskSteps(n, e, k);
    } else {
      RefusedThroughWrites(n, e, k);
    }
  }

  lemma NetSnoc(steps: seq<NetStep>, e: NetStep)
    ensures RunNet(steps + [e]) == Next(RunNet(steps), e)
  {
    assert (steps + [e])[..|steps|] == steps;
  }

  lemma {:induction false} RefusedForever(steps: seq<NetStep>, later: seq<NetStep>, k: nat)
    requires k < |RunNet(steps).tasks| && Refused(RunNet(steps).tasks[k])
    ensures var n := RunNet(steps + later);
            k < |n.tasks| && Refused(n.tasks[k]) && n.tasks[k].id == RunNet(steps).tasks[k].id
    decreases |later|
  {
    if later == [] {
      assert steps + later == steps;
    } else {
      var before, e := later[..|later| - 1], later[|later| - 1];
      RefusedForever(steps, before, k);
      NetSnoc(steps + before, e);
      assert steps + later == steps + before + [e];
      RefusedStays(RunNet(steps + before), e, k);
    }
  }

  /**
   A command that finds the executor taken reports failure and starts no script: not then, and
   not in any continuation of the run.
   */
  lemma BusyMeansRefused(steps: seq<NetStep>, k: nat, later: seq<NetStep>)
    requires var n := RunNet(steps);
             k < |n.tasks| && n.tasks[k].pc == Trying && IsTask(n, k) && n.procs[n.tasks[k].conn] in n.locks
    ensures var n := RunNet(steps + [TryLock(k)] + later);
            && k < |n.tasks| && n.tasks[k].id == RunNet(steps).tasks[k].id
            && Refused(n.tasks[k]) && n.tasks[k].id !in n.starts
  {
    RunInv(steps);
    TaskFacts(RunNet(steps), k);
    var tried := steps + [TryLock(k)];
    NetSnoc(steps, TryLock(k));
    RefusedForever(tried, later, k);
    RunInv(tried + later);
    NotRanNotStarted(RunNet(tried + later), k);
  }

  lemma NotRanNotStarted(n: Net, k: nat)
    requires Inv(n) && k < |n.tasks| && !n.tasks[k].ran
    ensures n.tasks[k].id !in n.starts
  {
    assert Holds(Starts, n) && Holds(Routes, n) && Holds(Tasks, n);
    if n.tasks[k].id in n.starts {
      var j :| 0 <= j < |n.tasks| && n.tasks[j].ran && n.tasks[j].id == n.tasks[k].id;
      DistinctIds(n, j, k);
    }
  }

  /** No attempt yet, the accepting ack, or the accepting ack and then one result. */
  ghost predicate AckThenOneResult(tries: seq<Msg>, id: CmdId) {
    || tries == [] || tries == [Ack(id, true)]
    || (|tries| == 2 && tries[0] == Ack(id, true) && tries[1].Result? && tries[1].id == id)
  }

  lemma TriesOfTask(n: Net, k: nat)
    requires TriesOk(n) && k < |n.tasks|
    ensures AckThenOneResult(Of(n.attempts, n.tasks[k].id), n.tasks[k].id)
    ensures n.tasks[k].pc.Done? ==>
              Of(n.attempts, n.tasks[k].id) == [Ack(n.tasks[k].id, true), Result(n.tasks[k].id, n.tasks[k].pc.result)]
  {
  }

  lemma TriesUntaken(n: Net, id: CmdId)
    requires OriginsOk(n) && forall c: ConnId :: !Took(n, c, id)
    ensures Of(n.attempts, id) == []
  {
    OfNone(n.attempts, id);
  }

  /**
   What the agent tries to write about a command, log lines aside: one refusing ack when the payload
   does not parse; otherwise one accepting ack, then exactly one result once its handler is over.
   Nothing is ever tried for a command that was not taken.
   */
  lemma AnswersAttempted(steps: seq<NetStep>)
    ensures var n := RunNet(steps);
            && (forall c, i | TakenSlot(n, c, i) && n.down[c][i].payload == None ::
                  Of(n.attempts, n.down[c][i].id) == [Ack(n.down[c][i].id, false)])
            && (forall k | 0 <= k < |n.tasks| :: AckThenOneResult(Of(n.attempts, n.tasks[k].id), n.tasks[k].id))
            && (forall k | 0 <= k < |n.tasks| && n.tasks[k].pc.Done? ::
                  Of(n.attempts, n.tasks[k].id) ==
                  [Ack(n.tasks[k].id, true), Result(n.tasks[k].id, n.tasks[k].pc.result)])
            && (forall id | forall c: ConnId :: !Took(n, c, id) :: Of(n.attempts, id) == [])
  {
    RunInv(steps);
    AttemptsOf(RunNet(steps));
  }

  lemma AttemptsOf(n: Net)
    requires Inv(n)
    ensures forall c, i | TakenSlot(n, c, i) && n.down[c][i].payload == None ::
              Of(n.attempts, n.down[c][i].id) == [Ack(n.down[c][i].id, false)]
    ensures forall k | 0 <= k < |n.tasks| :: AckThenOneResult(Of(n.attempts, n.tasks[k].id), n.tasks[k].id)
    ensures forall k | 0 <= k < |n.tasks| && n.tasks[k].pc.Done? ::
              Of(n.attempts, n.tasks[k].id) == [Ack(n.tasks[k].id, true), Result(n.tasks[k].id, n.tasks[k].pc.result)]
    ensures forall id | forall c: ConnId :: !Took(n, c, id) :: Of(n.attempts, id) == []
  {
    assert Holds(Tries, n) && Holds(Origins, n);
    forall k | 0 <= k < |n.tasks| ensures AckThenOneResult(Of(n.attempts, n.tasks[k].id), n.tasks[k].id)
    {
      TriesOfTask(n, k);
    }
    forall id | forall c: ConnId :: !Took(n, c, id) ensures Of(n.attempts, id) == [] {
      TriesUntaken(n, id);
    }
  }

  /**
   With channels and agents attached the server still gives each command at most one terminal
   callback, and only if its `Send` succeeded.
   */
  lemma OneOutcomePerCommand(steps: seq<NetStep>)
    ensures var s := RunNet(steps).hub;
            && (forall i, j | 0 <= i < j < |s.reports| :: s.reports[i].id != s.reports[j].id)
            && (forall i | 0 <= i < |s.reports| :: H.WasSent(s, s.reports[i].id))
  {
    var hubSteps := HubRunsOn(steps);
    var s := RunNet(steps).hub;
    forall i, j | 0 <= i < j < |s.reports| ensures s.reports[i].id != s.reports[j].id {
      H.AtMostOneReport(hubSteps, i, j);
    }
    forall i | 0 <= i < |s.reports| ensures H.WasSent(s, s.reports[i].id) {
      H.ReportsOnlySentCommands(hubSteps, i);
    }
  }
}
