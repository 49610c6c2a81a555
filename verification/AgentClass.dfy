/**
 The agent's command handler as objects: one undisturbed `handleCommand`, with the executor it
 must win and the connection it answers on. `output` is what the script's two readers hand over,
 in the order in which they do; `AgentModel` lets handlers and readers interleave.
 */
module AgentClass {
  import opened Options
  import opened HubModel
  import opened AgentModel

  /** How a write ended; a failed one may still have gone through. */
  datatype Write = Written | Failed(through: bool)

  /** How preparing and running a script went. */
  datatype Script = NotStarted | Ran(output: seq<string>, wait: Wait)

  /** Message `i` of `msgs` meets outcome `outcomes[i]`, as long as the connection is open. */
  function Delivered(msgs: seq<Msg>, outcomes: seq<Write>, open: bool): (seq<Msg>, bool)
    requires |msgs| == |outcomes|
  {
    if msgs == [] || !open then ([], open)
    else
      match outcomes[0]
      case Written =>
        var (sent, open') := Delivered(msgs[1..], outcomes[1..], true);
        ([msgs[0]] + sent, open')
      case Failed(through) => (if through then [msgs[0]] else [], false)
  }

  lemma {:induction false} DeliveredConcat(a: seq<Msg>, b: seq<Msg>, oa: seq<Write>, ob: seq<Write>, open: bool)
    requires |a| == |oa| && |b| == |ob|
    ensures var (sentA, openA) := Delivered(a, oa, open);
            var (sentB, openB) := Delivered(b, ob, openA);
            Delivered(a + b, oa + ob, open) == (sentA + sentB, openB)
    decreases |a|
  {
    var sentA, sentB := Delivered(a, oa, open).0, Delivered(b, ob, Delivered(a, oa, open).1).0;
    if a == [] {
      assert a + b == b && oa + ob == ob && sentA + sentB == sentB;
    } else if !open || oa[0].Failed? {
      assert sentA + sentB == sentA;
    } else {
      assert sentA + sentB == [a[0]] + (sentA[1..] + sentB);
      assert (a + b)[1..] == a[1..] + b && (oa + ob)[1..] == oa[1..] + ob;
      DeliveredConcat(a[1..], b, oa[1..], ob, true);
    }
  }

  lemma DeliveredThrice(a: seq<Msg>, b: seq<Msg>, c: seq<Msg>, oa: seq<Write>, ob: seq<Write>, oc: seq<Write>,
                        open: bool)
    requires |a| == |oa| && |b| == |ob| && |c| == |oc|
    ensures var (sentA, openA) := Delivered(a, oa, open);
            var (sentB, openB) := Delivered(b, ob, openA);
            var (sentC, openC) := Delivered(c, oc, openB);
            Delivered(a + b + c, oa + ob + oc, open) == (sentA + sentB + sentC, openC)
  {
    DeliveredConcat(a, b, oa, ob, open);
    DeliveredConcat(a + b, c, oa + ob, oc, open);
  }

  /**
   Because every failed write closes the connection, what reaches it is a prefix of what was
   meant to: a result that arrives arrives after everything before it.
   */
  lemma {:induction false} DeliveredIsPrefix(msgs: seq<Msg>, outcomes: seq<Write>, open: bool)
    requires |msgs| == |outcomes|
    ensures var (sent, open') := Delivered(msgs, outcomes, open);
            && sent <= msgs
            && (open' <==> open && forall i | 0 <= i < |outcomes| :: outcomes[i].Written?)
            && (open' ==> sent == msgs)
    decreases |msgs|
  {
    if msgs != [] && open && outcomes[0].Written? {
      DeliveredIsPrefix(msgs[1..], outcomes[1..], true);
      assert forall i | 0 < i < |outcomes| :: outcomes[i] == outcomes[1..][i - 1];
    }
  }

  /** What the handler means to send. */
  function Answer(id: CmdId, lines: seq<string>, result: RunResult): seq<Msg> {
    [Ack(id, true)] + Logs(id, lines) + [Result(id, result)]
  }

  function Logs(id: CmdId, lines: seq<string>): (ms: seq<Msg>)
    ensures |ms| == |lines| && forall i | 0 <= i < |lines| :: ms[i] == Log(id, lines[i])
  {
    seq(|lines|, i requires 0 <= i < |lines| => Log(id, lines[i]))
  }

  /** Whether the command gets to start its script. */
  predicate Starts(busy: bool, action: Action, script: Script) {
    !busy && action != Unsupported && script.Ran?
  }

  /** The lines a command produces: none unless it wins the executor and its script starts. */
  function LinesOf(busy: bool, action: Action, script: Script): seq<string> {
    if Starts(busy, action, script) then script.output else []
  }

  function ResultFor(busy: bool, action: Action, script: Script): RunResult {
    if Starts(busy, action, script) then ResultOf(action, script.wait) else REFUSED
  }

  /** The answer goes out part by part, and whole if the connection is still open after it. */
  lemma AnswerDelivered(id: CmdId, lines: seq<string>, r: RunResult, oa: Write, ol: seq<Write>, or: Write, open: bool)
    requires |lines| == |ol|
    ensures var (sentA, openA) := Delivered([Ack(id, true)], [oa], open);
            var (sentL, openL) := Delivered(Logs(id, lines), ol, openA);
            var (sentR, openR) := Delivered([Result(id, r)], [or], openL);
            && Delivered(Answer(id, lines, r), [oa] + ol + [or], open) == (sentA + sentL + sentR, openR)
            && (openR ==> sentA + sentL + sentR == [Ack(id, true)] + Logs(id, lines) + [Result(id, r)])
  {
    DeliveredThrice([Ack(id, true)], Logs(id, lines), [Result(id, r)], [oa], ol, [or], open);
    DeliveredIsPrefix(Answer(id, lines, r), [oa] + ol + [or], open);
  }

  class Wire {
    var sent: seq<Msg>
    var open: bool

    constructor ()
      ensures sent == [] && open
    {
      sent, open := [], true;
    }

    method Send(m: Msg, outcome: Write) returns (ok: bool)
      modifies this
      ensures ok <==> old(open) && outcome.Written?
      ensures sent == old(sent) + (if old(open) && (ok || outcome.through) then [m] else []) && open == old(open)
    {
      ok := open && outcome.Written?;
      if open && (ok || outcome.through) {
        sent := sent + [m];
      }
    }

    /** A write by the handler: a failure closes the connection. */
    method SendOrClose(m: Msg, outcome: Write)
      modifies this
      ensures var (now, stillOpen) := Delivered([m], [outcome], old(open)); sent == old(sent) + now && open == stillOpen
    {
      var ok := Send(m, outcome);
      if !ok {
        open := false;
      }
    }
  }

  class Executor {
    var locked: bool
    var starts: nat

    constructor ()
      ensures !locked && starts == 0
    {
      locked, starts := false, 0;
    }

    /** `onLog` writes each line to the connection. */
    method Execute(id: CmdId, action: Action, script: Script, wire: Wire, outcomes: seq<Write>) returns (r: RunResult)
      requires |outcomes| == |LinesOf(locked, action, script)|
      modifies this, wire
      ensures locked == old(locked) && r == ResultFor(old(locked), action, script)
      ensures r.success <==> && !old(locked) && action != Unsupported && script.Ran?
                             && (script.wait == Exited(0) || (action == Status && script.wait == Exited(2)))
      ensures r.exitCode == if !old(locked) && action != Unsupported && script.Ran? && script.wait.Exited?
                            then script.wait.code else -1
      ensures starts == old(starts) + if !old(locked) && action != Unsupported && script.Ran? then 1 else 0
      ensures var msgs := Logs(id, LinesOf(old(locked), action, script));
              var (now, stillOpen) := Delivered(msgs, outcomes, old(wire.open));
              wire.sent == old(wire.sent) + now && wire.open == stillOpen
    {
      if locked {
        return REFUSED;
      }
      locked := true;
      if action == Unsupported || script.NotStarted? {
        locked := false;
        return REFUSED;
      }
      starts := starts + 1;
      ReadOutput(id, script.output, wire, outcomes);
      r := ResultOf(action, script.wait);
      locked := false;
    }

    method ReadOutput(id: CmdId, lines: seq<string>, wire: Wire, outcomes: seq<Write>)
      requires |outcomes| == |lines|
      modifies wire
      ensures var (now, stillOpen) := Delivered(Logs(id, lines), outcomes, old(wire.open));
              wire.sent == old(wire.sent) + now && wire.open == stillOpen
    {
      var i := 0;
      while i < |lines|
        invariant 0 <= i <= |lines|
        invariant var (now, stillOpen) := Delivered(Logs(id, lines[..i]), outcomes[..i], old(wire.open));
                  wire.sent == old(wire.sent) + now && wire.open == stillOpen
      {
        wire.SendOrClose(Log(id, lines[i]), outcomes[i]);
        DeliveredConcat(Logs(id, lines[..i]), [Log(id, lines[i])], outcomes[..i], [outcomes[i]], old(wire.open));
        assert Logs(id, lines[..i + 1]) == Logs(id, lines[..i]) + [Log(id, lines[i])];
        assert outcomes[..i + 1] == outcomes[..i] + [outcomes[i]];
        i := i + 1;
      }
      assert lines[..i] == lines && outcomes[..i] == outcomes;
    }
  }

  /**
   `handleCommand`: the whole answer is attempted in order, the executor is left as it was found,
   and a script is started at most once.
   */
  method HandleCommand(exec: Executor, wire: Wire, id: CmdId, action: Action, script: Script,
                       ackOutcome: Write, logOutcomes: seq<Write>, resultOutcome: Write) returns (r: RunResult)
    requires |logOutcomes| == |LinesOf(exec.locked, action, script)|
    modifies exec, wire
    ensures exec.locked == old(exec.locked) && r == ResultFor(old(exec.locked), action, script)
    ensures r.success <==> && !old(exec.locked) && action != Unsupported && script.Ran?
                           && (script.wait == Exited(0) || (action == Status && script.wait == Exited(2)))
    ensures r.exitCode == if !old(exec.locked) && action != Unsupported && script.Ran? && script.wait.Exited?
                          then script.wait.code else -1
    ensures exec.starts == old(exec.starts) + if !old(exec.locked) && action != Unsupported && script.Ran? then 1 else 0
    ensures wire.open ==>
              var lines := if !old(exec.locked) && action != Unsupported && script.Ran? then script.output else [];
              wire.sent == old(wire.sent) + ([Ack(id, true)] + Logs(id, lines) + [Result(id, r)])
    ensures var msgs := Answer(id, LinesOf(old(exec.locked), action, script), r);
            var (now, stillOpen) := Delivered(msgs, [ackOutcome] + logOutcomes + [resultOutcome], old(wire.open));
            wire.sent == old(wire.sent) + now && wire.open == stillOpen
  {
    ghost var lines := LinesOf(exec.locked, action, script);
    wire.SendOrClose(Ack(id, true), ackOutcome);
    r := exec.Execute(id, action, script, wire, logOutcomes);
    wire.SendOrClose(Result(id, r), resultOutcome);
    AnswerDelivered(id, lines, r, ackOutcome, logOutcomes, resultOutcome, old(wire.open));
  }
}
