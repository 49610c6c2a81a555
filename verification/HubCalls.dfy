/** Whole hub calls as runs of interleaving steps with nothing in between. */
module HubCalls {
  import opened Options
  import opened HubModel
  import opened HubClass

  lemma {:induction false} RunFromConcat(s: State, a: seq<Step>, b: seq<Step>)
    ensures RunFrom(s, a + b) == RunFrom(RunFrom(s, a), b)
    decreases |b|
  {
    if b == [] {
      assert a + b == a;
    } else {
      RunFromConcat(s, a, b[..|b| - 1]);
      assert (a + b)[..|a + b| - 1] == a + b[..|b| - 1];
    }
  }

  lemma RunOne(s: State, e: Step)
    ensures RunFrom(s, [e]) == Apply(s, e)
  {
    assert [e][..0] == [];
    assert RunFrom(s, []) == s;
  }

  function Reporting(k: Closer, order: seq<CmdId>): seq<Step> {
    seq(|order|, i requires 0 <= i < |order| => CloseReport(k, order[i]))
  }

  function Interrupts(order: seq<CmdId>): seq<Report> {
    seq(|order|, i requires 0 <= i < |order| => Interrupted(order[i]))
  }

  /** The steps of `closeAgent`. */
  function CloseSteps(k: Closer, order: seq<CmdId>): seq<Step> {
    [CloseDrain(k)] + Reporting(k, order) + [CloseEnd(k)]
  }

  lemma SetJobTwice(s: State, k: Closer, a: Job, b: Job)
    requires JobOf(s, k).Some?
    ensures JobOf(SetJob(s, k, a), k) == Some(a) && SetJob(SetJob(s, k, a), k, b) == SetJob(s, k, b)
    ensures SetJob(s, k, JobOf(s, k).value) == s
  {
  }

  /** The state after a closer holding `ids` reported those in `order`. */
  function Told(s: State, k: Closer, t: ConnId, ids: set<CmdId>, order: seq<CmdId>): State
    requires JobOf(s, k).Some?
  {
    SetJob(s, k, Job.Reporting(t, ids - set id | id in order)).(reports := s.reports + Interrupts(order))
  }

  lemma TellOneMore(s: State, k: Closer, t: ConnId, ids: set<CmdId>, order: seq<CmdId>, id: CmdId)
    requires JobOf(s, k) == Some(Job.Reporting(t, ids)) && id in ids && id !in order
    ensures Apply(Told(s, k, t, ids, order), CloseReport(k, id)) == Told(s, k, t, ids, order + [id])
  {
    var left := ids - set x | x in order;
    var left' := ids - set x | x in order + [id];
    assert left' == left - {id};
    assert Interrupts(order + [id]) == Interrupts(order) + [Interrupted(id)];
    SetJobTwice(s, k, Job.Reporting(t, left), Job.Reporting(t, left'));
  }

  /** Reporting some of the drained ids, each once. */
  lemma {:induction false} ReportingRun(s: State, k: Closer, t: ConnId, ids: set<CmdId>, order: seq<CmdId>)
    requires JobOf(s, k) == Some(Job.Reporting(t, ids))
    requires forall i | 0 <= i < |order| :: order[i] in ids
    requires forall i, j | 0 <= i < j < |order| :: order[i] != order[j]
    ensures RunFrom(s, Reporting(k, order)) == Told(s, k, t, ids, order)
    decreases |order|
  {
    if order == [] {
      SetJobTwice(s, k, JobOf(s, k).value, JobOf(s, k).value);
      assert ids - (set id | id in order) == ids;
    } else {
      var n := |order| - 1;
      ReportingRun(s, k, t, ids, order[..n]);
      assert Reporting(k, order)[..n] == Reporting(k, order[..n]);
      assert order == order[..n] + [order[n]];
      TellOneMore(s, k, t, ids, order[..n], order[n]);
    }
  }

  /** A whole `closeAgent`: the connection is drained, its commands are reported once each, the closer moves on. */
  lemma CloseRun(s: State, k: Closer, t: ConnId, order: seq<CmdId>)
    requires JobOf(s, k) == Some(Drain(t)) && t in s.hub.agents && Lists(order, s.hub.agents[t].pending)
    ensures RunFrom(s, CloseSteps(k, order)) ==
            EndJob(s, k).(hub := DrainConn(s.hub, t), reports := s.reports + Interrupts(order))
  {
    var ids := s.hub.agents[t].pending;
    var s1 := Apply(s, CloseDrain(k));
    DrainStep(s, k, t);
    ReportingRun(s1, k, t, ids, order);
    assert ids - (set id | id in order) == {};
    EndStep(s, s1, k, t, order);
    RunOne(s, CloseDrain(k));
    RunOne(Told(s1, k, t, ids, order), CloseEnd(k));
    RunFromConcat(s, [CloseDrain(k)], Reporting(k, order));
    RunFromConcat(s, [CloseDrain(k)] + Reporting(k, order), [CloseEnd(k)]);
  }

  lemma DrainStep(s: State, k: Closer, t: ConnId)
    requires JobOf(s, k) == Some(Drain(t)) && t in s.hub.agents
    ensures var job := Job.Reporting(t, s.hub.agents[t].pending);
            var s1 := Apply(s, CloseDrain(k));
            s1 == SetJob(s, k, job).(hub := DrainConn(s.hub, t)) && JobOf(s1, k) == Some(job)
  {
  }

  lemma EndStep(s: State, s1: State, k: Closer, t: ConnId, order: seq<CmdId>)
    requires JobOf(s, k).Some? && t in s.hub.agents
    requires var job := Job.Reporting(t, s.hub.agents[t].pending);
             s1 == SetJob(s, k, job).(hub := DrainConn(s.hub, t)) && JobOf(s1, k) == Some(job)
    requires s.hub.agents[t].pending - (set id | id in order) == {}
    ensures Apply(Told(s1, k, t, s.hub.agents[t].pending, order), CloseEnd(k)) ==
            EndJob(s, k).(hub := DrainConn(s.hub, t), reports := s.reports + Interrupts(order))
  {
    var ids := s.hub.agents[t].pending;
    SetJobTwice(s1, k, Job.Reporting(t, ids - set id | id in order), Job.Reporting(t, {}));
    EndJobAfterSet(s, k, Job.Reporting(t, ids), Job.Reporting(t, {}));
  }

  lemma EndJobAfterSet(s: State, k: Closer, a: Job, b: Job)
    requires JobOf(s, k).Some?
    ensures JobOf(SetJob(s, k, a), k).Some? && JobOf(SetJob(SetJob(s, k, a), k, b), k).Some?
    ensures EndJob(SetJob(SetJob(s, k, a), k, b), k) == EndJob(s, k)
  {
  }

  lemma NothingListed(order: seq<CmdId>)
    ensures Lists(order, {}) ==> order == []
  {
    if order != [] {
      assert order[0] in order;
    }
  }

  // ----- the calls -----

  function RegisterSteps(s: State, c: ConnId, order: seq<CmdId>): seq<Step>
    requires c in s.handlers
  {
    [Register(c)] + if Current(s.hub, s.handlers[c].server).Some? then CloseSteps(ByHandler(c), order) else []
  }

  /** An undisturbed `Register` does to the hub what `AgentHub.Register` promises. */
  lemma RegisterCall(s: State, c: ConnId, order: seq<CmdId>)
    requires At(s, c, Authed) && WellFormed(s.hub) && c !in s.hub.agents
    requires Lists(order, Waiting(s.hub, s.handlers[c].server))
    ensures var v := s.handlers[c].server;
            var s' := RunFrom(s, RegisterSteps(s, c, order));
            && s'.hub == CloseIn(SwapIn(s.hub, v, c), Current(s.hub, v))
            && s'.reports == s.reports + Interrupts(order) && At(s', c, Checking)
  {
    var v, s1 := s.handlers[c].server, Apply(s, Register(c));
    RunOne(s, Register(c));
    if Current(s.hub, v).Some? {
      CloseRun(s1, ByHandler(c), Current(s.hub, v).value, order);
      RunFromConcat(s, [Register(c)], CloseSteps(ByHandler(c), order));
    } else {
      assert [Register(c)] + [] == [Register(c)];
      NothingListed(order);
    }
  }

  function UnregisterSteps(s: State, c: ConnId, order: seq<CmdId>): seq<Step>
    requires c in s.handlers
  {
    [Unregister(c)] + if Current(s.hub, s.handlers[c].server) == Some(c) then CloseSteps(ByHandler(c), order) else []
  }

  /** An undisturbed `Unregister` does to the hub what `AgentHub.Unregister` promises. */
  lemma UnregisterCall(s: State, c: ConnId, order: seq<CmdId>)
    requires At(s, c, Leaving) && WellFormed(s.hub)
    requires var v := s.handlers[c].server;
             Lists(order, if Current(s.hub, v) == Some(c) then Waiting(s.hub, v) else {})
    ensures var v := s.handlers[c].server;
            var s' := RunFrom(s, UnregisterSteps(s, c, order));
            && s'.hub == (if Current(s.hub, v) == Some(c) then CloseIn(TakeOut(s.hub, v), Some(c)) else s.hub)
            && s'.reports == s.reports + Interrupts(order) && At(s', c, Gone)
  {
    var v, s1 := s.handlers[c].server, Apply(s, Unregister(c));
    RunOne(s, Unregister(c));
    if Current(s.hub, v) == Some(c) {
      CloseRun(s1, ByHandler(c), c, order);
      RunFromConcat(s, [Unregister(c)], CloseSteps(ByHandler(c), order));
    } else {
      assert [Unregister(c)] + [] == [Unregister(c)];
      NothingListed(order);
    }
  }

  function DeleteSteps(s: State, v: ServerId, order: seq<CmdId>): seq<Step> {
    [DeleteRow(v), Disconnect(v)] + if Current(s.hub, v).Some? then CloseSteps(ByDeleter(v), order) else []
  }

  /** An undisturbed deletion of a server does to rows and hub what `ServerService.Delete` promises. */
  lemma DeleteCall(s: State, v: ServerId, order: seq<CmdId>)
    requires v in s.rows && v !in s.deleters && WellFormed(s.hub) && Lists(order, Waiting(s.hub, v))
    ensures var s' := RunFrom(s, DeleteSteps(s, v, order));
            && s'.rows == s.rows - {v}
            && s'.hub == CloseIn(TakeOut(s.hub, v), Current(s.hub, v))
            && s'.reports == s.reports + Interrupts(order) && v in s'.deleters && s'.deleters[v] == Deleted
  {
    var s0 := Apply(s, DeleteRow(v));
    var s1 := Apply(s0, Disconnect(v));
    RunOne(s, DeleteRow(v));
    RunOne(s0, Disconnect(v));
    RunFromConcat(s, [DeleteRow(v)], [Disconnect(v)]);
    assert [DeleteRow(v)] + [Disconnect(v)] == [DeleteRow(v), Disconnect(v)];
    if Current(s.hub, v).Some? {
      CloseRun(s1, ByDeleter(v), Current(s.hub, v).value, order);
      RunFromConcat(s, [DeleteRow(v), Disconnect(v)], CloseSteps(ByDeleter(v), order));
    } else {
      assert [DeleteRow(v), Disconnect(v)] + [] == [DeleteRow(v), Disconnect(v)];
      NothingListed(order);
    }
  }

  /** An undisturbed `Send` of a new command does to the hub what `AgentHub.Send` promises. */
  lemma SendCall(s: State, id: CmdId, deadlineSet: bool, wrote: bool)
    requires id in s.senders && s.senders[id].pc == Looking && id !in Waiting(s.hub, s.senders[id].server)
    ensures var v := s.senders[id].server;
            var s' := RunFrom(s, [SendLookup(id), SendCommit(id, deadlineSet && wrote)]);
            && s'.hub == SendIn(s.hub, v, id, true, deadlineSet, wrote) && id in s'.senders
            && (s'.senders[id].pc.Sent? <==> deadlineSet && wrote && Writable(s.hub, v).Some?)
            && (s'.senders[id].pc.Sent? || s'.senders[id].pc.SendFailed?)
  {
    var v, e := s.senders[id].server, SendCommit(id, deadlineSet && wrote);
    RunOne(s, SendLookup(id));
    RunOne(Apply(s, SendLookup(id)), e);
    RunFromConcat(s, [SendLookup(id)], [e]);
    assert [SendLookup(id)] + [e] == [SendLookup(id), e];
    if !deadlineSet || !wrote || Writable(s.hub, v) == None {
      FailedSendLeavesNoTrace(s.hub, v, id, true, deadlineSet, wrote);
    }
  }

  function AnswerSteps(c: ConnId, m: Msg): seq<Step> {
    [Receive(c, m), FinishLookup(c)] + [FinishCommit(c), Fire(c)]
  }

  /** An undisturbed turn of the read loop does to the hub what the service's handlers promise. */
  lemma AnswerCall(s: State, c: ConnId, m: Msg)
    requires At(s, c, Reading) && WellFormed(s.hub)
    ensures var s' := RunFrom(s, AnswerSteps(c, m));
            var (h, es) := HandleIn(s.hub, s.handlers[c].server, m);
            && s'.hub == h && At(s', c, Reading)
            && s'.reports == s.reports + if Settles(m) && es != [] then [Answered(m.id, c, m)] else []
  {
    var s2 := Apply(Apply(s, Receive(c, m)), FinishLookup(c));
    RunTwo(s, Receive(c, m), FinishLookup(c));
    RunTwo(s2, FinishCommit(c), Fire(c));
    RunFromConcat(s, [Receive(c, m), FinishLookup(c)], [FinishCommit(c), Fire(c)]);
    AnswerLookup(s, c, m);
    AnswerCommit(s, s2, c, m);
  }

  lemma AnswerLookup(s: State, c: ConnId, m: Msg)
    requires At(s, c, Reading)
    ensures var found := Current(s.hub, s.handlers[c].server);
            Apply(Apply(s, Receive(c, m)), FinishLookup(c)) ==
            if Settles(m) && found.Some? then Go(s, c, Holding(m, found.value)) else s
  {
    assert Go(s, c, Reading) == s;
  }

  lemma AnswerCommit(s: State, s2: State, c: ConnId, m: Msg)
    requires At(s, c, Reading) && WellFormed(s.hub)
    requires var found := Current(s.hub, s.handlers[c].server);
             s2 == if Settles(m) && found.Some? then Go(s, c, Holding(m, found.value)) else s
    ensures var s' := Apply(Apply(s2, FinishCommit(c)), Fire(c));
            var (h, es) := HandleIn(s.hub, s.handlers[c].server, m);
            && s'.hub == h && At(s', c, Reading)
            && s'.reports == s.reports + if Settles(m) && es != [] then [Answered(m.id, c, m)] else []
  {
  }

  lemma RunTwo(s: State, a: Step, b: Step)
    ensures RunFrom(s, [a, b]) == Apply(Apply(s, a), b)
  {
    RunOne(s, a);
    RunOne(Apply(s, a), b);
    RunFromConcat(s, [a], [b]);
    assert [a] + [b] == [a, b];
  }
}
