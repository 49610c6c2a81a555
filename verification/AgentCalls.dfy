/**
 A whole `handleCommand`, as `AgentClass` has it, is an undisturbed run of one handler in `AgentModel`:
 the same messages reach the connection, the same result is reported, and the executor
 is left as it was found.
 */
module AgentCalls {
  import opened Options
  import opened HubModel
  import opened AgentModel
  import opened AgentClass

  function RunNetFrom(n: Net, steps: seq<NetStep>): Net {
    if steps == [] then n else Next(RunNetFrom(n, steps[..|steps| - 1]), steps[|steps| - 1])
  }

  lemma {:induction false} NetConcat(n: Net, a: seq<NetStep>, b: seq<NetStep>)
    ensures RunNetFrom(n, a + b) == RunNetFrom(RunNetFrom(n, a), b)
    decreases |b|
  {
    if b == [] {
      assert a + b == a;
    } else {
      NetConcat(n, a, b[..|b| - 1]);
      assert (a + b)[..|a + b| - 1] == a + b[..|b| - 1];
    }
  }

  lemma NetOne(n: Net, e: NetStep)
    ensures RunNetFrom(n, [e]) == Next(n, e)
  {
    assert [e][..0] == [];
    assert RunNetFrom(n, []) == n;
  }

  predicate IsOpen(n: Net, k: nat) {
    IsTask(n, k) && n.tasks[k].conn !in n.shut
  }

  function IdOf(n: Net, k: nat): CmdId
    requires IsTask(n, k)
  {
    n.tasks[k].id
  }

  /** Only handler `k` moved, and what reached its connection is `sent`. */
  ghost predicate Moves(n: Net, n': Net, k: nat, sent: seq<Msg>) {
    && IsTask(n, k) && IsTask(n', k) && |n'.tasks| == |n.tasks|
    && (forall j | 0 <= j < |n.tasks| && j != k :: n'.tasks[j] == n.tasks[j])
    && n'.tasks[k].conn == n.tasks[k].conn && n'.tasks[k].id == n.tasks[k].id
    && n'.tasks[k].action == n.tasks[k].action
    && n'.procs == n.procs && n'.hub == n.hub && n'.down == n.down && n'.taken == n.taken && n'.got == n.got
    && n'.up == n.up[n.tasks[k].conn := n.up[n.tasks[k].conn] + sent]
  }

  lemma MovesTwice(a: Net, b: Net, c: Net, k: nat, first: seq<Msg>, second: seq<Msg>)
    requires Moves(a, b, k, first) && Moves(b, c, k, second)
    ensures Moves(a, c, k, first + second)
  {
    var d := a.tasks[k].conn;
    assert a.up[d] + (first + second) == a.up[d] + first + second;
  }

  /** Handler `k` moved without writing or closing. */
  ghost predicate Moved(n: Net, n': Net, k: nat) {
    Moves(n, n', k, []) && n'.shut == n.shut
  }

  lemma PutMoves(n: Net, n': Net, k: nat, t: Task)
    requires IsTask(n, k) && n' == Put(n, k, t).(locks := n'.locks, starts := n'.starts, attempts := n'.attempts)
    requires t.conn == n.tasks[k].conn && t.id == n.tasks[k].id && t.action == n.tasks[k].action
    ensures Moved(n, n', k)
  {
    var c := n.tasks[k].conn;
    assert n.up[c] + [] == n.up[c];
    assert n.up[c := n.up[c] + []] == n.up;
  }

  /** The handler wrote `m` with the given outcome, and closed the connection if that failed. */
  ghost predicate Wrote(n: Net, n': Net, k: nat, m: Msg, o: Write) {
    && IsTask(n, k) && n'.locks == n.locks && n'.starts == n.starts
    && Moves(n, n', k, Delivered([m], [o], IsOpen(n, k)).0)
    && (IsOpen(n', k) <==> Delivered([m], [o], IsOpen(n, k)).1)
  }

  function Through(o: Write): bool {
    o.Failed? && o.through
  }

  lemma WriteOutcome(n: Net, k: nat, m: Msg, o: Write)
    requires IsTask(n, k)
    ensures var c := n.tasks[k].conn;
            Emit(n, c, m, o.Written?, Through(o)).up ==
            n.up[c := n.up[c] + Delivered([m], [o], IsOpen(n, k)).0]
    ensures Delivered([m], [o], IsOpen(n, k)).1 <==> IsOpen(n, k) && o.Written?
  {
    var c := n.tasks[k].conn;
    assert n.up[c] + [] == n.up[c];
    assert n.up[c := n.up[c] + []] == n.up;
    assert [m] + [] == [m];
  }

  /** The net after a write of handler `k` that left it at `t`, with the connection closed on failure. */
  function Written(n: Net, k: nat, m: Msg, o: Write, t: Task, attempts: seq<Msg>): Net
    requires IsTask(n, k)
  {
    var c := n.tasks[k].conn;
    Put(Emit(n, c, m, o.Written?, Through(o)), k, t)
    .(attempts := attempts, shut := if IsOpen(n, k) && o.Written? then n.shut else n.shut + {c})
  }

  lemma WrittenWrote(n: Net, k: nat, m: Msg, o: Write, t: Task, attempts: seq<Msg>)
    requires IsTask(n, k) && t.conn == n.tasks[k].conn && t.id == n.tasks[k].id && t.action == n.tasks[k].action
    ensures Wrote(n, Written(n, k, m, o, t, attempts), k, m, o)
  {
    WriteOutcome(n, k, m, o);
  }

  /** One step when the write succeeded, a second one that closes the connection when it did not. */
  function WriteSteps(n: Net, k: nat, o: Write, send: NetStep, close: NetStep): seq<NetStep> {
    if IsOpen(n, k) && o.Written? then [send] else [send] + [close]
  }

  lemma WriteStepsRun(n: Net, k: nat, o: Write, send: NetStep, close: NetStep)
    ensures RunNetFrom(n, WriteSteps(n, k, o, send, close)) ==
            if IsOpen(n, k) && o.Written? then Next(n, send) else Next(Next(n, send), close)
  {
    NetOne(n, send);
    NetOne(Next(n, send), close);
    NetConcat(n, [send], [close]);
  }

  /** The net right after the write, before a failure closes the connection. */
  function Sent(n: Net, k: nat, m: Msg, o: Write, t: Task, attempts: seq<Msg>): Net
    requires IsTask(n, k)
  {
    Put(Emit(n, n.tasks[k].conn, m, o.Written?, Through(o)), k, t).(attempts := attempts)
  }

  lemma SentIsTask(n: Net, k: nat, m: Msg, o: Write, t: Task, attempts: seq<Msg>)
    requires IsTask(n, k) && t.conn == n.tasks[k].conn
    ensures var n' := Sent(n, k, m, o, t, attempts); IsTask(n', k) && n'.tasks[k] == t && n'.shut == n.shut
  {
  }

  lemma SentOpen(n: Net, k: nat, m: Msg, o: Write, t: Task, attempts: seq<Msg>)
    requires IsTask(n, k) && IsOpen(n, k) && o.Written?
    ensures Sent(n, k, m, o, t, attempts) == Written(n, k, m, o, t, attempts)
  {
  }

  lemma SentClosed(n: Net, k: nat, m: Msg, o: Write, failed: Task, t: Task, attempts: seq<Msg>)
    requires IsTask(n, k) && !(IsOpen(n, k) && o.Written?) && failed.conn == n.tasks[k].conn
    ensures var n' := Sent(n, k, m, o, failed, attempts);
            Put(n', k, t).(shut := n'.shut + {failed.conn}) == Written(n, k, m, o, t, attempts)
  {
    assert n.tasks[k := failed][k := t] == n.tasks[k := t];
  }

  lemma AckNext(n: Net, k: nat, o: Write)
    requires IsTask(n, k) && n.tasks[k].pc == Acking
    ensures var t, m, sent := n.tasks[k], Ack(n.tasks[k].id, true), DoSendAck(n, k, o.Written?, Through(o));
            var open := IsOpen(n, k) && o.Written?;
            (if open then sent else DoCloseAfterAck(sent, k)) ==
            Written(n, k, m, o, t.(pc := Trying, clean := t.clean && open), n.attempts + [m])
  {
    var t, m, attempts := n.tasks[k], Ack(n.tasks[k].id, true), n.attempts + [Ack(n.tasks[k].id, true)];
    if IsOpen(n, k) && o.Written? {
      SentOpen(n, k, m, o, t.(pc := Trying), attempts);
    } else {
      var failed := t.(pc := AckFailed, clean := false);
      SentIsTask(n, k, m, o, failed, attempts);
      SentClosed(n, k, m, o, failed, t.(pc := Trying, clean := false), attempts);
    }
  }

  lemma AckRuns(n: Net, k: nat, o: Write) returns (n': Net, steps: seq<NetStep>)
    requires IsTask(n, k) && n.tasks[k].pc == Acking
    ensures n' == RunNetFrom(n, steps) && Wrote(n, n', k, Ack(IdOf(n, k), true), o) && n'.tasks[k].pc == Trying
  {
    var t, m := n.tasks[k], Ack(IdOf(n, k), true);
    var send, close := SendAck(k, o.Written?, Through(o)), CloseAfterAck(k);
    steps := WriteSteps(n, k, o, send, close);
    WriteStepsRun(n, k, o, send, close);
    AckNext(n, k, o);
    t := t.(pc := Trying, clean := t.clean && IsOpen(n, k) && o.Written?);
    n' := Written(n, k, m, o, t, n.attempts + [m]);
    WrittenWrote(n, k, m, o, t, n.attempts + [m]);
  }

  lemma ReplyNext(n: Net, k: nat, o: Write)
    requires IsTask(n, k) && n.tasks[k].pc.Replying?
    ensures var t, res := n.tasks[k], n.tasks[k].pc.result;
            var m, sent := Result(t.id, res), DoReply(n, k, o.Written?, Through(o));
            (if IsOpen(n, k) && o.Written? then sent else DoCloseAfterReply(sent, k)) ==
            Written(n, k, m, o, t.(pc := Done(res)), n.attempts + [m])
  {
    var t, res := n.tasks[k], n.tasks[k].pc.result;
    var m, attempts := Result(t.id, res), n.attempts + [Result(t.id, res)];
    if IsOpen(n, k) && o.Written? {
      SentOpen(n, k, m, o, t.(pc := Done(res)), attempts);
    } else {
      SentIsTask(n, k, m, o, t.(pc := ReplyFailed(res)), attempts);
      SentClosed(n, k, m, o, t.(pc := ReplyFailed(res)), t.(pc := Done(res)), attempts);
    }
  }

  lemma ReplyRuns(n: Net, k: nat, o: Write) returns (n': Net, steps: seq<NetStep>)
    requires IsTask(n, k) && n.tasks[k].pc.Replying?
    ensures n' == RunNetFrom(n, steps) && Wrote(n, n', k, Result(IdOf(n, k), n.tasks[k].pc.result), o)
    ensures n'.tasks[k].pc == Done(n.tasks[k].pc.result)
  {
    var t, res := n.tasks[k], n.tasks[k].pc.result;
    var m := Result(t.id, res);
    var send, close := Reply(k, o.Written?, Through(o)), CloseAfterReply(k);
    steps := WriteSteps(n, k, o, send, close);
    WriteStepsRun(n, k, o, send, close);
    ReplyNext(n, k, o);
    n' := Written(n, k, m, o, t.(pc := Done(res)), n.attempts + [m]);
    WrittenWrote(n, k, m, o, t.(pc := Done(res)), n.attempts + [m]);
  }

  const BOTH_READY := Running([Ready, Ready])

  /** Reader `r` has this line in hand. */
  function InHand(r: nat, line: string): TaskPc
    requires r < 2
  {
    Running([Ready, Ready][r := Writing(line)])
  }

  /** Where a write leaves the handler before a failure closes the connection. */
  function AfterWrite(t: Task, r: nat, line: string, open: bool): Task
    requires r < 2
  {
    if open then t.(pc := BOTH_READY)
    else t.(pc := Running([Ready, Ready][r := WriteFailed]), clean := false)
  }

  lemma LineSent(n: Net, k: nat, r: nat, line: string, o: Write)
    requires r < 2 && IsTask(n, k) && n.tasks[k].pc == InHand(r, line)
    ensures DoWriteLine(n, k, r, o.Written?, Through(o)) ==
            Sent(n, k, Log(n.tasks[k].id, line), o, AfterWrite(n.tasks[k], r, line, IsOpen(n, k) && o.Written?),
                 n.attempts)
  {
    var rs := [Ready, Ready][r := Writing(line)];
    assert rs[r := Ready] == [Ready, Ready] && rs[r := WriteFailed] == [Ready, Ready][r := WriteFailed];
  }

  lemma LineClosed(n: Net, k: nat, r: nat, t: Task)
    requires r < 2 && IsTask(n, k) && n.tasks[k] == t && t.pc == Running([Ready, Ready][r := WriteFailed])
    ensures DoCloseAfterLog(n, k, r) == Put(n, k, t.(pc := BOTH_READY)).(shut := n.shut + {t.conn})
  {
    assert [Ready, Ready][r := WriteFailed][r := Ready] == [Ready, Ready];
  }

  lemma LineNext(n: Net, k: nat, r: nat, line: string, o: Write)
    requires r < 2 && IsTask(n, k) && n.tasks[k].pc == InHand(r, line)
    ensures var t, m, sent := n.tasks[k], Log(n.tasks[k].id, line), DoWriteLine(n, k, r, o.Written?, Through(o));
            var open := IsOpen(n, k) && o.Written?;
            (if open then sent else DoCloseAfterLog(sent, k, r)) ==
            Written(n, k, m, o, t.(pc := BOTH_READY, clean := t.clean && open), n.attempts)
  {
    var t, m := n.tasks[k], Log(n.tasks[k].id, line);
    LineSent(n, k, r, line, o);
    if IsOpen(n, k) && o.Written? {
      SentOpen(n, k, m, o, t.(pc := BOTH_READY), n.attempts);
    } else {
      var failed := AfterWrite(t, r, line, false);
      SentIsTask(n, k, m, o, failed, n.attempts);
      LineClosed(Sent(n, k, m, o, failed, n.attempts), k, r, failed);
      SentClosed(n, k, m, o, failed, t.(pc := BOTH_READY, clean := false), n.attempts);
    }
  }

  lemma WriteRuns(n: Net, k: nat, r: nat, line: string, o: Write) returns (n': Net, steps: seq<NetStep>)
    requires r < 2 && IsTask(n, k) && n.tasks[k].pc == InHand(r, line)
    ensures n' == RunNetFrom(n, steps) && Wrote(n, n', k, Log(IdOf(n, k), line), o) && n'.tasks[k].pc == BOTH_READY
  {
    var t, m := n.tasks[k], Log(IdOf(n, k), line);
    var send, close := WriteLine(k, r, o.Written?, Through(o)), CloseAfterLog(k, r);
    steps := WriteSteps(n, k, o, send, close);
    WriteStepsRun(n, k, o, send, close);
    LineNext(n, k, r, line, o);
    t := t.(pc := BOTH_READY, clean := t.clean && IsOpen(n, k) && o.Written?);
    n' := Written(n, k, m, o, t, n.attempts);
    WrittenWrote(n, k, m, o, t, n.attempts);
  }

  lemma ReadRuns(n: Net, k: nat, r: nat, line: string) returns (n': Net)
    requires IsTask(n, k) && n.tasks[k].pc == BOTH_READY && r < 2
    ensures n' == RunNetFrom(n, [ReadLine(k, r, line)]) && Moved(n, n', k) && n'.tasks[k].pc == InHand(r, line)
    ensures n'.locks == n.locks && n'.starts == n.starts
  {
    NetOne(n, ReadLine(k, r, line));
    n' := Next(n, ReadLine(k, r, line));
    PutMoves(n, n', k, n'.tasks[k]);
  }

  lemma LineRuns(n: Net, k: nat, r: nat, line: string, o: Write) returns (n': Net, steps: seq<NetStep>)
    requires IsTask(n, k) && n.tasks[k].pc == BOTH_READY && r < 2
    ensures n' == RunNetFrom(n, steps) && Wrote(n, n', k, Log(IdOf(n, k), line), o) && n'.tasks[k].pc == BOTH_READY
  {
    var n1 := ReadRuns(n, k, r, line);
    var n2, rest := WriteRuns(n1, k, r, line, o);
    NetConcat(n, [ReadLine(k, r, line)], rest);
    n', steps := n2, [ReadLine(k, r, line)] + rest;
    var sent := Delivered([Log(IdOf(n, k), line)], [o], IsOpen(n, k)).0;
    MovesTwice(n, n1, n2, k, [], sent);
    assert [] + sent == sent;
  }

  /** The handler wrote these messages in order, closing the connection at the first failure. */
  ghost predicate WroteAll(n: Net, n': Net, k: nat, ms: seq<Msg>, os: seq<Write>)
    requires |ms| == |os|
  {
    && IsTask(n, k)
    && Moves(n, n', k, Delivered(ms, os, IsOpen(n, k)).0)
    && (IsOpen(n', k) <==> Delivered(ms, os, IsOpen(n, k)).1)
  }

  lemma WroteTwice(a: Net, b: Net, c: Net, k: nat, ms: seq<Msg>, os: seq<Write>, ms': seq<Msg>, os': seq<Write>)
    requires |ms| == |os| && |ms'| == |os'| && WroteAll(a, b, k, ms, os) && WroteAll(b, c, k, ms', os')
    ensures WroteAll(a, c, k, ms + ms', os + os')
  {
    DeliveredConcat(ms, ms', os, os', IsOpen(a, k));
    MovesTwice(a, b, c, k, Delivered(ms, os, IsOpen(a, k)).0, Delivered(ms', os', IsOpen(b, k)).0);
  }

  lemma MovedWrote(n: Net, n': Net, k: nat)
    requires Moved(n, n', k)
    ensures WroteAll(n, n', k, [], [])
  {
  }

  /** `who[i]` is the reader that hands over line `i`. */
  lemma {:induction false} LinesRun(n: Net, k: nat, who: seq<nat>, lines: seq<string>, os: seq<Write>)
      returns (n': Net, steps: seq<NetStep>)
    requires IsTask(n, k) && n.tasks[k].pc == BOTH_READY && |who| == |lines| == |os|
    requires forall i | 0 <= i < |who| :: who[i] < 2
    ensures n' == RunNetFrom(n, steps) && WroteAll(n, n', k, Logs(IdOf(n, k), lines), os)
    ensures n'.tasks[k].pc == BOTH_READY && n'.locks == n.locks && n'.starts == n.starts
    decreases |lines|
  {
    if lines == [] {
      n', steps := n, [];
      PutMoves(n, n, k, n.tasks[k]);
      assert n.tasks[k := n.tasks[k]] == n.tasks;
    } else {
      var i := |lines| - 1;
      var n1, first := LinesRun(n, k, who[..i], lines[..i], os[..i]);
      var last;
      n', last := LineRuns(n1, k, who[i], lines[i], os[i]);
      NetConcat(n, first, last);
      steps := first + last;
      var id := IdOf(n, k);
      WroteTwice(n, n1, n', k, Logs(id, lines[..i]), os[..i], [Log(id, lines[i])], [os[i]]);
      assert Logs(id, lines) == Logs(id, lines[..i]) + [Log(id, lines[i])];
      assert os == os[..i] + [os[i]];
    }
  }

  // ----- the executor -----

  predicate Taken(n: Net, k: nat)
    requires IsTask(n, k)
  {
    n.procs[n.tasks[k].conn] in n.locks
  }

  lemma LockRuns(n: Net, k: nat) returns (n': Net)
    requires IsTask(n, k) && n.tasks[k].pc == Trying
    ensures n' == RunNetFrom(n, [TryLock(k)]) && Moved(n, n', k) && n'.starts == n.starts
    ensures if Taken(n, k) then n'.tasks[k].pc == Replying(REFUSED) && n'.locks == n.locks
            else n'.tasks[k].pc == Locked && n'.locks == n.locks[n.procs[n.tasks[k].conn] := k]
  {
    NetOne(n, TryLock(k));
    n' := Next(n, TryLock(k));
    PutMoves(n, n', k, n'.tasks[k]);
  }

  lemma AbortRuns(n: Net, k: nat) returns (n': Net)
    requires IsTask(n, k) && n.tasks[k].pc == Locked
    ensures n' == RunNetFrom(n, [Abort(k)]) && Moved(n, n', k) && n'.starts == n.starts
    ensures n'.tasks[k].pc == Replying(REFUSED) && n'.locks == n.locks - {n.procs[n.tasks[k].conn]}
  {
    NetOne(n, Abort(k));
    n' := Next(n, Abort(k));
    PutMoves(n, n', k, n'.tasks[k]);
  }

  lemma StartRuns(n: Net, k: nat) returns (n': Net)
    requires IsTask(n, k) && n.tasks[k].pc == Locked && n.tasks[k].action != Unsupported
    ensures n' == RunNetFrom(n, [StartScript(k)]) && Moved(n, n', k) && n'.starts == n.starts + [IdOf(n, k)]
    ensures n'.tasks[k].pc == BOTH_READY && n'.locks == n.locks
  {
    NetOne(n, StartScript(k));
    n' := Next(n, StartScript(k));
    PutMoves(n, n', k, n'.tasks[k]);
  }

  lemma ReaderEnds(n: Net, k: nat, r: nat) returns (n': Net)
    requires ReaderAt(n, k, r) && n.tasks[k].pc.readers[r] == Ready
    ensures n' == RunNetFrom(n, [EndRead(k, r)]) && Moved(n, n', k) && n'.starts == n.starts && n'.locks == n.locks
    ensures n'.tasks[k].pc == Running(n.tasks[k].pc.readers[r := Ended])
  {
    NetOne(n, EndRead(k, r));
    n' := Next(n, EndRead(k, r));
    PutMoves(n, n', k, n'.tasks[k]);
  }

  lemma WaitRuns(n: Net, k: nat, w: Wait) returns (n': Net)
    requires IsTask(n, k) && n.tasks[k].pc == Running([Ended, Ended])
    ensures n' == RunNetFrom(n, [WaitScript(k, w)]) && Moved(n, n', k) && n'.starts == n.starts
    ensures n'.tasks[k].pc == Replying(ResultOf(n.tasks[k].action, w))
    ensures n'.locks == n.locks - {n.procs[n.tasks[k].conn]}
  {
    NetOne(n, WaitScript(k, w));
    n' := Next(n, WaitScript(k, w));
    PutMoves(n, n', k, n'.tasks[k]);
  }

  lemma MovedTwice(a: Net, b: Net, c: Net, k: nat)
    requires Moved(a, b, k) && Moved(b, c, k)
    ensures Moved(a, c, k)
  {
    var none: seq<Msg> := [];
    MovesTwice(a, b, c, k, none, none);
    assert none + none == none;
  }

  lemma EndRuns(n: Net, k: nat, w: Wait) returns (n': Net, steps: seq<NetStep>)
    requires IsTask(n, k) && n.tasks[k].pc == BOTH_READY
    ensures n' == RunNetFrom(n, steps) && Moved(n, n', k) && n'.starts == n.starts
    ensures n'.tasks[k].pc == Replying(ResultOf(n.tasks[k].action, w))
    ensures n'.locks == n.locks - {n.procs[n.tasks[k].conn]}
  {
    var n1 := ReaderEnds(n, k, 0);
    var n2 := ReaderEnds(n1, k, 1);
    assert [Ready, Ready][0 := Ended][1 := Ended] == [Ended, Ended];
    n' := WaitRuns(n2, k, w);
    NetConcat(n, [EndRead(k, 0)], [EndRead(k, 1)]);
    NetConcat(n, [EndRead(k, 0)] + [EndRead(k, 1)], [WaitScript(k, w)]);
    steps := [EndRead(k, 0)] + [EndRead(k, 1)] + [WaitScript(k, w)];
    MovedTwice(n, n1, n2, k);
    MovedTwice(n, n2, n', k);
  }

  lemma QuietBefore(a: Net, b: Net, c: Net, k: nat, ms: seq<Msg>, os: seq<Write>)
    requires |ms| == |os| && Moved(a, b, k) && WroteAll(b, c, k, ms, os)
    ensures WroteAll(a, c, k, ms, os)
  {
    MovedWrote(a, b, k);
    WroteTwice(a, b, c, k, [], [], ms, os);
    assert [] + ms == ms && [] + os == os;
  }

  lemma QuietAfter(a: Net, b: Net, c: Net, k: nat, ms: seq<Msg>, os: seq<Write>)
    requires |ms| == |os| && WroteAll(a, b, k, ms, os) && Moved(b, c, k)
    ensures WroteAll(a, c, k, ms, os)
  {
    MovedWrote(b, c, k);
    WroteTwice(a, b, c, k, ms, os, [], []);
    assert ms + [] == ms && os + [] == os;
  }

  /** From the won lock to the end of the script. */
  lemma ScriptRuns(n: Net, k: nat, who: seq<nat>, lines: seq<string>, os: seq<Write>, w: Wait)
      returns (n': Net, steps: seq<NetStep>)
    requires IsTask(n, k) && n.tasks[k].pc == Locked && n.tasks[k].action != Unsupported
    requires |who| == |lines| == |os| && forall i | 0 <= i < |who| :: who[i] < 2
    ensures n' == RunNetFrom(n, steps) && WroteAll(n, n', k, Logs(IdOf(n, k), lines), os)
    ensures n'.tasks[k].pc == Replying(ResultOf(n.tasks[k].action, w))
    ensures n'.starts == n.starts + [IdOf(n, k)] && n'.locks == n.locks - {n.procs[n.tasks[k].conn]}
  {
    var id := IdOf(n, k);
    var n1 := StartRuns(n, k);
    var n2, read := LinesRun(n1, k, who, lines, os);
    var end;
    n', end := EndRuns(n2, k, w);
    NetConcat(n, [StartScript(k)], read);
    NetConcat(n, [StartScript(k)] + read, end);
    steps := [StartScript(k)] + read + end;
    QuietBefore(n, n1, n2, k, Logs(id, lines), os);
    QuietAfter(n, n2, n', k, Logs(id, lines), os);
  }

  /** `Execute`: from trying the lock to a result, with the executor as it was found. */
  lemma ExecuteRuns(n: Net, k: nat, script: Script, who: seq<nat>, os: seq<Write>)
      returns (n': Net, steps: seq<NetStep>)
    requires IsTask(n, k) && n.tasks[k].pc == Trying
    requires |who| == |os| == |LinesOf(Taken(n, k), n.tasks[k].action, script)|
    requires forall i | 0 <= i < |who| :: who[i] < 2
    ensures n' == RunNetFrom(n, steps)
    ensures WroteAll(n, n', k, Logs(IdOf(n, k), LinesOf(Taken(n, k), n.tasks[k].action, script)), os)
    ensures n'.tasks[k].pc == Replying(ResultFor(Taken(n, k), n.tasks[k].action, script)) && n'.locks == n.locks
    ensures n'.starts == n.starts + if Starts(Taken(n, k), n.tasks[k].action, script) then [IdOf(n, k)] else []
  {
    var id, action, p := IdOf(n, k), n.tasks[k].action, n.procs[n.tasks[k].conn];
    var n1 := LockRuns(n, k);
    if Taken(n, k) {
      n', steps := n1, [TryLock(k)];
      MovedWrote(n, n', k);
    } else if !Starts(false, action, script) {
      n' := AbortRuns(n1, k);
      steps := [TryLock(k)] + [Abort(k)];
      NetConcat(n, [TryLock(k)], [Abort(k)]);
      MovedTwice(n, n1, n', k);
      MovedWrote(n, n', k);
      assert n.locks[p := k] - {p} == n.locks;
    } else {
      var rest;
      n', rest := ScriptRuns(n1, k, who, script.output, os, script.wait);
      steps := [TryLock(k)] + rest;
      NetConcat(n, [TryLock(k)], rest);
      QuietBefore(n, n1, n', k, Logs(id, script.output), os);
      assert n.locks[p := k] - {p} == n.locks;
    }
  }

  /** Ack, lines and result, one after the other, are the whole answer. */
  lemma AnswerWritten(n: Net, n1: Net, n2: Net, n': Net, k: nat, lines: seq<string>, r: RunResult, ackOutcome: Write,
                      logOutcomes: seq<Write>, resultOutcome: Write)
    requires IsTask(n, k) && |lines| == |logOutcomes|
    requires Wrote(n, n1, k, Ack(IdOf(n, k), true), ackOutcome)
    requires WroteAll(n1, n2, k, Logs(IdOf(n, k), lines), logOutcomes)
    requires Wrote(n2, n', k, Result(IdOf(n, k), r), resultOutcome)
    ensures WroteAll(n, n', k, Answer(IdOf(n, k), lines, r), [ackOutcome] + logOutcomes + [resultOutcome])
  {
    var id := IdOf(n, k);
    WroteTwice(n, n1, n2, k, [Ack(id, true)], [ackOutcome], Logs(id, lines), logOutcomes);
    WroteTwice(n, n2, n', k, [Ack(id, true)] + Logs(id, lines), [ackOutcome] + logOutcomes,
               [Result(id, r)], [resultOutcome]);
  }

  /**
   A whole `handleCommand` as `AgentClass.HandleCommand` promises it is a run of the machine in
   which only this handler moves, whichever reader hands over each line.
   */
  lemma HandleCommandIsRun(n: Net, k: nat, script: Script, who: seq<nat>, ackOutcome: Write, logOutcomes: seq<Write>,
                           resultOutcome: Write) returns (n': Net, steps: seq<NetStep>)
    requires IsTask(n, k) && n.tasks[k].pc == Acking
    requires |who| == |logOutcomes| == |LinesOf(Taken(n, k), n.tasks[k].action, script)|
    requires forall i | 0 <= i < |who| :: who[i] < 2
    ensures n' == RunNetFrom(n, steps)
    ensures var t, busy := n.tasks[k], Taken(n, k);
            var r := ResultFor(busy, t.action, script);
            && WroteAll(n, n', k, Answer(t.id, LinesOf(busy, t.action, script), r),
                        [ackOutcome] + logOutcomes + [resultOutcome])
            && n'.tasks[k].pc == Done(r) && n'.locks == n.locks
            && n'.starts == n.starts + if Starts(busy, t.action, script) then [t.id] else []
  {
    var t, busy := n.tasks[k], Taken(n, k);
    var lines, r := LinesOf(busy, t.action, script), ResultFor(busy, t.action, script);
    var n1, ack := AckRuns(n, k, ackOutcome);
    var n2, execute := ExecuteRuns(n1, k, script, who, logOutcomes);
    var reply;
    n', reply := ReplyRuns(n2, k, resultOutcome);
    NetConcat(n, ack, execute);
    NetConcat(n, ack + execute, reply);
    steps := ack + execute + reply;
    AnswerWritten(n, n1, n2, n', k, lines, r, ackOutcome, logOutcomes, resultOutcome);
  }
}
