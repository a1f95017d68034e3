/** The bridge of app/src/main.cc: the UI thread queues calls for one worker thread, except op.cancel,
    which it runs itself against the registry of the query in flight.  Every atomic action of either
    thread is one step; a run is any interleaving of enabled steps. */
module RpcBridge {
  import opened Prelude
  import opened OpRegistry

  /** A call for the worker, by what it does to the connections. */
  datatype Call = Open(cancels: bool) | Close(conn: int) | Query(conn: int) | Other

  /** `RpcJob`: the promise to resolve and the call. */
  datatype Job = Job(ticket: nat, call: Call)

  datatype Worker =
    | Checking                            // about to lock and test the wait condition
    | Asleep                              // inside the condition variable
    | Holding(job: Job)                   // popped, not yet dispatched
    | Running(job: Job, conn: int, ref: Ref) // between op_begin and op_end
    | Finished(job: Job)                  // dispatched, reply not yet posted
    | Gone                                // returned

  datatype Ui = Idle | MustNotify | StopNotify | Joining | Done

  datatype Reply = Posted(ticket: nat) | Canceled(ticket: nat, delivered: bool) | Refused(ticket: nat)

  datatype State = State(
    ui: Ui, worker: Worker,
    queue: seq<Job>, stop: bool,
    conns: map<int, Ref>, nextConn: int, nextHandle: nat, disconnected: set<nat>,
    registry: map<int, Ref>,
    accepted: seq<Job>, completed: seq<Job>,
    posted: seq<Reply>, inline: seq<Reply>, signalled: seq<nat>)

  const START := State(Idle, Checking, [], false, map[], 1, 0, {}, map[], [], [], [], [], [])

  datatype Step =
    | Submit(job: Job) | Notify | Cancel(ticket: nat, conn: int, hook: Status) | BadCall(ticket: nat)
    | CloseWindow | NotifyStop | Join
    | Check | Spurious | Dispatch | QueryReturns | Post

  predicate Enabled(s: State, step: Step) {
    match step
    case Submit(_) => s.ui == Idle
    case Cancel(_, _, _) => s.ui == Idle
    case BadCall(_) => s.ui == Idle
    case Notify => s.ui == MustNotify
    case CloseWindow => s.ui == Idle
    case NotifyStop => s.ui == StopNotify
    case Join => s.ui == Joining && s.worker == Gone
    case Check => s.worker == Checking
    case Spurious => s.worker == Asleep
    case Dispatch => s.worker.Holding?
    case QueryReturns => s.worker.Running?
    case Post => s.worker.Finished?
  }

  function Wake(w: Worker): Worker {
    if w == Asleep then Checking else w
  }

  function Dispatched(s: State, job: Job): State {
    match job.call
    case Query(c) =>
      if c in s.conns then s.(worker := Running(job, c, s.conns[c]), registry := Begin(s.registry, c, s.conns[c]))
      else s.(worker := Finished(job))
    case Open(cancels) =>
      s.(worker := Finished(job), conns := s.conns[s.nextConn := Ref(s.nextHandle, cancels)],
         nextConn := s.nextConn + 1, nextHandle := s.nextHandle + 1)
    case Close(c) =>
      if c in s.conns then
        s.(worker := Finished(job), conns := s.conns - {c}, disconnected := s.disconnected + {s.conns[c].handle})
      else s.(worker := Finished(job))
    case Other => s.(worker := Finished(job))
  }

  /** op.cancel: `dbcore_op_cancel` with its lock held throughout, where the driver's hook, if reached, answers
      `hook`; only its success counts as canceled. */
  function Cancelled(s: State, ticket: nat, conn: int, hook: Status): State {
    s.(inline := s.inline + [Canceled(ticket, CancelStatus(s.registry, conn, hook) == Success)],
       signalled := if Hits(s.registry, conn) then s.signalled + [s.registry[conn].handle] else s.signalled)
  }

  function Do(s: State, step: Step): State
    requires Enabled(s, step)
  {
    match step
    case Submit(job) => s.(queue := s.queue + [job], accepted := s.accepted + [job], ui := MustNotify)
    case Cancel(ticket, conn, hook) => Cancelled(s, ticket, conn, hook)
    case BadCall(ticket) => s.(inline := s.inline + [Refused(ticket)])
    case Notify => s.(ui := Idle, worker := Wake(s.worker))
    case CloseWindow => s.(stop := true, ui := StopNotify)
    case NotifyStop => s.(ui := Joining, worker := Wake(s.worker))
    case Join => s.(ui := Done)
    case Check =>
      if s.stop then s.(worker := Gone)
      else if s.queue == [] then s.(worker := Asleep)
      else s.(worker := Holding(s.queue[0]), queue := s.queue[1..])
    case Spurious => s.(worker := Checking)
    case Dispatch => Dispatched(s, s.worker.job)
    case QueryReturns => s.(registry := s.registry - {s.worker.conn}, worker := Finished(s.worker.job))
    case Post => s.(worker := Checking, completed := s.completed + [s.worker.job],
                    posted := s.posted + [Posted(s.worker.job.ticket)])
  }

  /** `run` is a sequence of steps each enabled when its turn comes, from `s` to `t`. */
  predicate Leads(s: State, run: seq<Step>, t: State)
    decreases |run|
  {
    if run == [] then s == t
    else Enabled(s, run[0]) && Leads(Do(s, run[0]), run[1..], t)
  }

  ghost predicate Reachable(s: State) {
    exists run :: Leads(START, run, s)
  }

  // ---------------------------------------------------------------- the invariant

  function InFlight(w: Worker): seq<Job> {
    if w.Holding? || w.Running? || w.Finished? then [w.job] else []
  }

  function Tickets(jobs: seq<Job>): seq<Reply> {
    if jobs == [] then [] else Tickets(jobs[..|jobs| - 1]) + [Posted(jobs[|jobs| - 1].ticket)]
  }

  /** No job is lost, repeated or reordered, and each completed one has its own reply. */
  predicate Conserved(s: State) {
    s.accepted == s.completed + InFlight(s.worker) + s.queue && s.posted == Tickets(s.completed)
  }

  /** Handles are distinct, were all issued, and a listed one was not disconnected. */
  predicate TableSound(s: State) {
    && (forall c <- s.conns ::
          c < s.nextConn && s.conns[c].handle < s.nextHandle && s.conns[c].handle !in s.disconnected)
    && (forall h <- s.disconnected :: h < s.nextHandle)
    && (forall c <- s.conns, d <- s.conns :: s.conns[c].handle == s.conns[d].handle ==> c == d)
  }

  /** The registry holds exactly the query the worker is inside, under the table's own handle. */
  predicate RegistrySound(s: State) {
    if s.worker.Running? then
      && s.registry == map[s.worker.conn := s.worker.ref]
      && s.worker.conn in s.conns && s.conns[s.worker.conn] == s.worker.ref
    else s.registry == map[]
  }

  /** A sleeping worker with something to do has a notification on its way. */
  predicate NoLostWakeup(s: State) {
    && (s.worker == Asleep && (s.stop || s.queue != []) ==> s.ui == MustNotify || s.ui == StopNotify)
    && (s.stop <==> s.ui == StopNotify || s.ui == Joining || s.ui == Done)
    && (s.worker == Gone ==> s.stop) && (s.ui == Done ==> s.worker == Gone)
  }

  predicate Inv(s: State) {
    Conserved(s) && TableSound(s) && RegistrySound(s) && NoLostWakeup(s)
  }

  lemma TicketsAppend(jobs: seq<Job>, j: Job)
    ensures Tickets(jobs + [j]) == Tickets(jobs) + [Posted(j.ticket)]
  {
    assert (jobs + [j])[..|jobs|] == jobs;
  }

  lemma PostConserves(s: State)
    requires Conserved(s) && Enabled(s, Post)
    ensures Conserved(Do(s, Post))
  {
    TicketsAppend(s.completed, s.worker.job);
    assert InFlight(s.worker) == [s.worker.job];
    assert s.completed + [s.worker.job] + [] + s.queue == s.completed + [s.worker.job] + s.queue;
  }

  lemma CheckConserves(s: State)
    requires Conserved(s) && Enabled(s, Check)
    ensures Conserved(Do(s, Check))
  {
    if !s.stop && s.queue != [] {
      assert InFlight(s.worker) == [] && InFlight(Holding(s.queue[0])) == [s.queue[0]];
      assert s.completed + [] + s.queue == s.completed + [s.queue[0]] + s.queue[1..];
    }
  }

  lemma SubmitConserves(s: State, job: Job)
    requires Conserved(s) && Enabled(s, Submit(job))
    ensures Conserved(Do(s, Submit(job)))
  {
    assert s.completed + InFlight(s.worker) + s.queue + [job] == s.completed + InFlight(s.worker) + (s.queue + [job]);
  }

  lemma StepKeepsConserved(s: State, step: Step)
    requires Conserved(s) && Enabled(s, step)
    ensures Conserved(Do(s, step))
  {
    match step {
      case Post => PostConserves(s);
      case Check => CheckConserves(s);
      case Submit(job) => SubmitConserves(s, job);
      case _ =>
        var t := Do(s, step);
        assert InFlight(t.worker) == InFlight(s.worker) && t.queue == s.queue;
        assert t.accepted == s.accepted && t.completed == s.completed && t.posted == s.posted;
    }
  }

  lemma OpenKeepsTables(s: State)
    requires TableSound(s) && RegistrySound(s) && s.worker.Holding? && s.worker.job.call.Open?
    ensures TableSound(Do(s, Dispatch)) && RegistrySound(Do(s, Dispatch))
  {
    var t := Do(s, Dispatch);
    assert forall c <- t.conns :: c in s.conns || c == s.nextConn;
  }

  lemma CloseKeepsTables(s: State)
    requires TableSound(s) && RegistrySound(s) && s.worker.Holding? && s.worker.job.call.Close?
    ensures TableSound(Do(s, Dispatch)) && RegistrySound(Do(s, Dispatch))
  {
    var t := Do(s, Dispatch);
    assert forall d <- t.conns :: d in s.conns && t.conns[d] == s.conns[d];
  }

  lemma DispatchKeepsTables(s: State)
    requires TableSound(s) && RegistrySound(s) && s.worker.Holding?
    ensures TableSound(Do(s, Dispatch)) && RegistrySound(Do(s, Dispatch))
  {
    match s.worker.job.call {
      case Open(_) => OpenKeepsTables(s);
      case Close(_) => CloseKeepsTables(s);
      case _ =>
        var t := Do(s, Dispatch);
        assert t.conns == s.conns && t.disconnected == s.disconnected;
        assert |s.registry| < OP_SLOTS;
    }
  }

  lemma StepKeepsTables(s: State, step: Step)
    requires TableSound(s) && RegistrySound(s) && Enabled(s, step)
    ensures TableSound(Do(s, step)) && RegistrySound(Do(s, step))
  {
    if step == Dispatch {
      DispatchKeepsTables(s);
    } else if step == QueryReturns {
      assert s.registry - {s.worker.conn} == map[];
    }
  }

  lemma StepKeepsWakeup(s: State, step: Step)
    requires NoLostWakeup(s) && Enabled(s, step)
    ensures NoLostWakeup(Do(s, step))
  {
  }

  lemma StepKeepsInv(s: State, step: Step)
    requires Inv(s) && Enabled(s, step)
    ensures Inv(Do(s, step))
  {
    StepKeepsConserved(s, step);
    StepKeepsTables(s, step);
    StepKeepsWakeup(s, step);
  }

  lemma {:induction false} RunKeepsInv(s: State, run: seq<Step>, t: State)
    requires Inv(s) && Leads(s, run, t)
    ensures Inv(t)
    decreases |run|
  {
    if run != [] {
      StepKeepsInv(s, run[0]);
      RunKeepsInv(Do(s, run[0]), run[1..], t);
    }
  }

  /** In every reachable state of every interleaving. */
  lemma ReachableIsSound(s: State)
    requires Reachable(s)
    ensures Inv(s)
  {
    var run :| Leads(START, run, s);
    RunKeepsInv(START, run, s);
  }

  // ---------------------------------------------------------------- what it gives

  /** Only the worker writes the connection table; the UI thread leaves it, and the call the worker
      is in, alone. */
  lemma UiLeavesTheTable(s: State, step: Step)
    requires Enabled(s, step)
    requires step.Submit? || step.Notify? || step.Cancel? || step.BadCall? || step.CloseWindow?
             || step.NotifyStop? || step.Join?
    ensures var t := Do(s, step);
            && t.conns == s.conns && t.disconnected == s.disconnected && t.registry == s.registry
            && InFlight(t.worker) == InFlight(s.worker) && t.completed == s.completed && t.posted == s.posted
  {
  }

  /** Whatever the worker is doing, op.cancel answers at once under its own ticket and changes nothing
      else; it signals a driver exactly when the worker is inside a query of that connection whose
      driver can cancel, and then the handle signalled is that connection's live one.  It says canceled
      exactly when that driver's hook succeeded. */
  lemma CancelHitsTheRunningQuery(s: State, ticket: nat, conn: int, hook: Status)
    requires Reachable(s) && s.ui == Idle
    ensures Enabled(s, Cancel(ticket, conn, hook))
    ensures var t := Do(s, Cancel(ticket, conn, hook));
            var hit := s.worker.Running? && s.worker.conn == conn && s.worker.ref.cancels;
            && t.inline == s.inline + [Canceled(ticket, hit && hook == Success)]
            && t.signalled == s.signalled + (if hit then [s.worker.ref.handle] else [])
            && t == s.(inline := t.inline, signalled := t.signalled)
            && (hit ==> conn in s.conns && s.conns[conn].handle == s.worker.ref.handle
                        && s.worker.ref.handle !in s.disconnected)
  {
    ReachableIsSound(s);
  }

  /** A query is always tracked: the registry never fills up. */
  lemma RunningIsTracked(s: State)
    requires Reachable(s)
    ensures |s.registry| <= 1
    ensures s.worker.Running? <==> s.registry != map[]
    ensures s.worker.Running? ==> s.worker.conn in s.conns && s.registry == map[s.worker.conn := s.conns[s.worker.conn]]
  {
    ReachableIsSound(s);
  }

  lemma {:induction false} TicketAt(jobs: seq<Job>, i: nat)
    requires i < |jobs|
    ensures |Tickets(jobs)| == |jobs| && Tickets(jobs)[i] == Posted(jobs[i].ticket)
  {
    var n := |jobs| - 1;
    if i < n {
      TicketAt(jobs[..n], i);
    } else if n > 0 {
      TicketAt(jobs[..n], 0);
    }
  }

  /** In order and without loss: accepted = completed, then the one in flight, then the queue; and the
      worker posted one reply per completed call, under that call's ticket. */
  lemma QueueConserved(s: State)
    requires Reachable(s)
    ensures s.accepted == s.completed + InFlight(s.worker) + s.queue && |InFlight(s.worker)| <= 1
    ensures |s.posted| == |s.completed|
    ensures forall i | 0 <= i < |s.posted| :: s.posted[i] == Posted(s.accepted[i].ticket)
  {
    ReachableIsSound(s);
    if s.completed != [] {
      TicketAt(s.completed, 0);
    }
    forall i | 0 <= i < |s.posted|
      ensures s.posted[i] == Posted(s.accepted[i].ticket)
    {
      TicketAt(s.completed, i);
    }
  }

  /** Once the stop flag is set no further call is accepted or taken: what a run still completes is at
      most the call in flight, and the abandoned ones are exactly the queue. */
  lemma {:induction false} StopFreezesTheQueue(s: State, run: seq<Step>, t: State)
    requires Inv(s) && s.stop && Leads(s, run, t)
    ensures t.stop && t.queue == s.queue && t.accepted == s.accepted
    ensures t.worker == Gone ==> t.accepted == t.completed + s.queue
    decreases |run|
  {
    if run != [] {
      StepKeepsInv(s, run[0]);
      StopFreezesTheQueue(Do(s, run[0]), run[1..], t);
    } else if t.worker == Gone {
      assert t.completed + [] == t.completed;
    }
  }

  /** A query can be canceled from the moment it is dispatched: op.cancel then reaches the handle of the
      connection it was sent to. */
  lemma DispatchedCanBeCanceled(s: State, c: int, ticket: nat)
    requires Reachable(s) && s.ui == Idle && s.worker.Holding? && s.worker.job.call == Query(c)
    requires c in s.conns && s.conns[c].cancels
    ensures Enabled(Do(s, Dispatch), Cancel(ticket, c, Success))
    ensures var t := Do(Do(s, Dispatch), Cancel(ticket, c, Success));
            t.inline == s.inline + [Canceled(ticket, true)] && t.signalled == s.signalled + [s.conns[c].handle]
  {
    ReachableIsSound(s);
    StepKeepsInv(s, Dispatch);
  }

  function Submitted(run: seq<Step>): seq<Job> {
    if run == [] then [] else (if run[0].Submit? then [run[0].job] else []) + Submitted(run[1..])
  }

  /** The tickets of the calls that are not for the worker: cancels, and calls whose arguments are malformed. */
  function AskedInline(run: seq<Step>): seq<nat> {
    if run == [] then []
    else (if run[0].Cancel? || run[0].BadCall? then [run[0].ticket] else []) + AskedInline(run[1..])
  }

  function TicketsOf(replies: seq<Reply>): seq<nat> {
    if replies == [] then [] else TicketsOf(replies[..|replies| - 1]) + [replies[|replies| - 1].ticket]
  }

  lemma TicketsOfAppend(replies: seq<Reply>, r: Reply)
    ensures TicketsOf(replies + [r]) == TicketsOf(replies) + [r.ticket]
  {
    assert (replies + [r])[..|replies|] == replies;
  }

  lemma StepAccepts(s: State, step: Step)
    requires Enabled(s, step)
    ensures Do(s, step).accepted == s.accepted + if step.Submit? then [step.job] else []
    ensures TicketsOf(Do(s, step).inline)
         == TicketsOf(s.inline) + if step.Cancel? || step.BadCall? then [step.ticket] else []
  {
    assert s.accepted + [] == s.accepted && TicketsOf(s.inline) + [] == TicketsOf(s.inline);
    if step.Cancel? || step.BadCall? {
      var inline := Do(s, step).inline;
      assert inline == s.inline + [inline[|s.inline|]];
      TicketsOfAppend(s.inline, inline[|s.inline|]);
    }
  }

  lemma Regroup<T>(a: seq<T>, b: seq<T>, c: seq<T>)
    ensures a + b + c == a + (b + c)
  {
  }

  /** Over every run the calls accepted are those submitted, in order ... */
  lemma {:induction false} SubmittedAreAccepted(s: State, run: seq<Step>, t: State)
    requires Leads(s, run, t)
    ensures t.accepted == s.accepted + Submitted(run)
    decreases |run|
  {
    if run == [] {
      assert s.accepted + [] == s.accepted;
    } else {
      StepAccepts(s, run[0]);
      SubmittedAreAccepted(Do(s, run[0]), run[1..], t);
      Regroup(s.accepted, if run[0].Submit? then [run[0].job] else [], Submitted(run[1..]));
    }
  }

  /** ... and every other call is answered at once, under its own ticket. */
  lemma {:induction false} OthersAreAnswered(s: State, run: seq<Step>, t: State)
    requires Leads(s, run, t)
    ensures TicketsOf(t.inline) == TicketsOf(s.inline) + AskedInline(run)
    decreases |run|
  {
    var was := TicketsOf(s.inline);
    if run == [] {
      assert was + [] == was;
    } else {
      StepAccepts(s, run[0]);
      OthersAreAnswered(Do(s, run[0]), run[1..], t);
      Regroup(was, if run[0].Cancel? || run[0].BadCall? then [run[0].ticket] else [], AskedInline(run[1..]));
    }
  }

  // ---------------------------------------------------------------- what the worker did, over a run

  /** A dispatch: the job taken up, and the connections listed at that moment. */
  datatype Dispatching = Dispatching(job: Job, conns: map<int, Ref>)

  /** A query under way: its job, the connection and the handle. */
  datatype Start = Start(job: Job, conn: int, ref: Ref)

  function Dispatches(s: State, run: seq<Step>, t: State): seq<Dispatching>
    requires Leads(s, run, t)
    decreases |run|
  {
    if run == [] then []
    else
      (if run[0].Dispatch? then [Dispatching(s.worker.job, s.conns)] else [])
      + Dispatches(Do(s, run[0]), run[1..], t)
  }

  /** The queries that began to run, each with what it ran on. */
  function Starts(s: State, run: seq<Step>, t: State): seq<Start>
    requires Leads(s, run, t)
    decreases |run|
  {
    if run == [] then []
    else
      var u := Do(s, run[0]);
      (if u.worker.Running? && !s.worker.Running? then [Start(u.worker.job, u.worker.conn, u.worker.ref)] else [])
      + Starts(u, run[1..], t)
  }

  function JobsOf(ds: seq<Dispatching>): seq<Job> {
    if ds == [] then [] else [ds[0].job] + JobsOf(ds[1..])
  }

  /** The queries among dispatches, on connections that were listed then, each under that connection's handle. */
  function QueriesOf(ds: seq<Dispatching>): seq<Start> {
    if ds == [] then []
    else
      var d := ds[0];
      (if d.job.call.Query? && d.job.call.conn in d.conns
       then [Start(d.job, d.job.call.conn, d.conns[d.job.call.conn])] else [])
      + QueriesOf(ds[1..])
  }

  /** The jobs dispatched so far: the completed ones, and the one whose call is under way or whose reply is due. */
  function Begun(s: State): seq<Job> {
    s.completed + if s.worker.Running? || s.worker.Finished? then [s.worker.job] else []
  }

  lemma StepBegins(s: State, step: Step)
    requires Enabled(s, step)
    ensures Begun(Do(s, step)) == Begun(s) + if step.Dispatch? then [s.worker.job] else []
  {
    if step.Post? {
      assert s.completed + [s.worker.job] + [] == s.completed + [s.worker.job];
    } else if step.Dispatch? {
      assert s.completed + [] == s.completed;
    } else {
      assert Begun(s) + [] == Begun(s);
    }
  }

  lemma StepStarts(s: State, step: Step)
    requires Enabled(s, step)
    ensures var u := Do(s, step);
            (if u.worker.Running? && !s.worker.Running? then [Start(u.worker.job, u.worker.conn, u.worker.ref)] else [])
            == if step.Dispatch? then QueriesOf([Dispatching(s.worker.job, s.conns)]) else []
  {
    if step.Dispatch? {
      assert [Dispatching(s.worker.job, s.conns)][1..] == [];
    }
  }

  /** Every job that was completed, or is about to be, was dispatched once, in order. */
  lemma {:induction false} BegunWereDispatched(s: State, run: seq<Step>, t: State)
    requires Leads(s, run, t)
    ensures Begun(t) == Begun(s) + JobsOf(Dispatches(s, run, t))
    decreases |run|
  {
    if run == [] {
      assert Begun(s) + [] == Begun(s);
    } else {
      var later := Dispatches(Do(s, run[0]), run[1..], t);
      StepBegins(s, run[0]);
      BegunWereDispatched(Do(s, run[0]), run[1..], t);
      if run[0].Dispatch? {
        var d := Dispatching(s.worker.job, s.conns);
        assert ([d] + later)[1..] == later;
        assert Begun(s) + [d.job] + JobsOf(later) == Begun(s) + ([d.job] + JobsOf(later));
      } else {
        assert [] + later == later && Begun(s) + [] == Begun(s);
      }
    }
  }

  lemma QueriesJoin(d: Dispatching, later: seq<Dispatching>)
    ensures QueriesOf([d] + later) == QueriesOf([d]) + QueriesOf(later)
  {
    assert ([d] + later)[1..] == later && [d][1..] == [];
    assert QueriesOf([d]) + [] == QueriesOf([d]);
  }

  /** Exactly the queries among them, on connections listed at their dispatch, began to run, each under its
      connection's own handle. */
  lemma {:induction false} DispatchedRan(s: State, run: seq<Step>, t: State)
    requires Leads(s, run, t)
    ensures Starts(s, run, t) == QueriesOf(Dispatches(s, run, t))
    decreases |run|
  {
    if run != [] {
      var later := Dispatches(Do(s, run[0]), run[1..], t);
      StepStarts(s, run[0]);
      DispatchedRan(Do(s, run[0]), run[1..], t);
      if run[0].Dispatch? {
        QueriesJoin(Dispatching(s.worker.job, s.conns), later);
      } else {
        assert [] + later == later && [] + QueriesOf(later) == QueriesOf(later);
      }
    }
  }

  function CallsOf(ds: seq<Dispatching>): seq<Call> {
    if ds == [] then [] else [ds[0].job.call] + CallsOf(ds[1..])
  }

  /** How many of the first n calls open a connection. */
  function Opens(calls: seq<Call>, n: nat): nat
    requires n <= |calls|
  {
    if n == 0 then 0 else Opens(calls, n - 1) + if calls[n - 1].Open? then 1 else 0
  }

  predicate OpenedAt(calls: seq<Call>, i: nat, c: int, ref: Ref) {
    && i < |calls| && calls[i] == Open(ref.cancels) && c == Opens(calls, i) + 1 && ref.handle == Opens(calls, i)
    && forall j | i < j < |calls| :: calls[j] != Close(c)
  }

  /** Of the calls, one opened the connection `c` with that handle, as the c-th to open any, and none since closed
      it. */
  ghost predicate Stands(calls: seq<Call>, c: int, ref: Ref) {
    exists i :: OpenedAt(calls, i, c, ref)
  }

  ghost predicate TableIs(conns: map<int, Ref>, calls: seq<Call>) {
    && (forall c <- conns :: Stands(calls, c, conns[c]))
    && (forall i: nat, c: int, ref: Ref | OpenedAt(calls, i, c, ref) :: c in conns && conns[c] == ref)
  }

  ghost predicate CountersAre(s: State, calls: seq<Call>) {
    s.nextConn == Opens(calls, |calls|) + 1 && s.nextHandle == Opens(calls, |calls|)
  }

  lemma {:induction false} OpensFront(calls: seq<Call>, more: seq<Call>, n: nat)
    requires n <= |calls|
    ensures Opens(calls + more, n) == Opens(calls, n)
  {
    if n > 0 {
      OpensFront(calls, more, n - 1);
    }
  }

  lemma {:induction false} OpensGrow(calls: seq<Call>, i: nat, n: nat)
    requires i <= n <= |calls|
    ensures Opens(calls, i) <= Opens(calls, n)
    ensures i < n && calls[i].Open? ==> Opens(calls, i) < Opens(calls, n)
    decreases n - i
  {
    if i < n {
      OpensGrow(calls, i + 1, n);
    }
  }

  lemma OpenedMore(calls: seq<Call>, call: Call, i: nat, c: int, ref: Ref)
    ensures OpenedAt(calls + [call], i, c, ref) <==>
              (OpenedAt(calls, i, c, ref) && call != Close(c))
              || (i == |calls| && call == Open(ref.cancels) && c == Opens(calls, |calls|) + 1
                  && ref.handle == Opens(calls, |calls|))
  {
    var all := calls + [call];
    if i <= |calls| {
      OpensFront(calls, [call], i);
    }
    assert forall j | 0 <= j < |calls| :: all[j] == calls[j];
    assert all[|calls|] == call;
  }

  lemma StandsAfter(s: State, calls: seq<Call>, c: int)
    requires s.worker.Holding? && TableIs(s.conns, calls) && CountersAre(s, calls) && c in Do(s, Dispatch).conns
    ensures Stands(calls + [s.worker.job.call], c, Do(s, Dispatch).conns[c])
  {
    var u, call := Do(s, Dispatch), s.worker.job.call;
    if call.Open? && c == s.nextConn {
      OpenedMore(calls, call, |calls|, c, u.conns[c]);
    } else {
      var i :| OpenedAt(calls, i, c, s.conns[c]);
      OpenedMore(calls, call, i, c, s.conns[c]);
    }
  }

  /** What a dispatch makes of the table is what its call adds to the history. */
  lemma DispatchKeepsTable(s: State, calls: seq<Call>)
    requires s.worker.Holding? && TableIs(s.conns, calls) && CountersAre(s, calls)
    ensures var u, after := Do(s, Dispatch), calls + [s.worker.job.call];
            TableIs(u.conns, after) && CountersAre(u, after)
  {
    var u, call := Do(s, Dispatch), s.worker.job.call;
    var after := calls + [call];
    OpensFront(calls, [call], |calls|);
    forall c | c in u.conns
      ensures Stands(after, c, u.conns[c])
    {
      StandsAfter(s, calls, c);
    }
    forall i: nat, c: int, ref: Ref | OpenedAt(after, i, c, ref)
      ensures c in u.conns && u.conns[c] == ref
    {
      OpenedMore(calls, call, i, c, ref);
      if OpenedAt(calls, i, c, ref) {
        OpensGrow(calls, i, |calls|);
      }
    }
  }

  /** What a step adds to the history of dispatches, and to the table and its counters. */
  lemma StepInHistory(s: State, run: seq<Step>, t: State, calls: seq<Call>) returns (after: seq<Call>)
    requires Leads(s, run, t) && run != [] && TableIs(s.conns, calls) && CountersAre(s, calls)
    ensures var u, ds := Do(s, run[0]), Dispatches(s, run, t);
            var later := Dispatches(u, run[1..], t);
            && TableIs(u.conns, after) && CountersAre(u, after)
            && if run[0].Dispatch? then
                 ds == [Dispatching(s.worker.job, s.conns)] + later && after == calls + [s.worker.job.call]
               else ds == later && after == calls
  {
    after := if run[0].Dispatch? then calls + [s.worker.job.call] else calls;
    var later := Dispatches(Do(s, run[0]), run[1..], t);
    assert [] + later == later;
    if run[0].Dispatch? {
      DispatchKeepsTable(s, calls);
    }
  }

  lemma CallsJoin(calls: seq<Call>, d: Dispatching, later: seq<Dispatching>)
    ensures calls + [d.job.call] + CallsOf(later) == calls + CallsOf([d] + later)
  {
    assert ([d] + later)[1..] == later;
    assert calls + [d.job.call] + CallsOf(later) == calls + ([d.job.call] + CallsOf(later));
  }

  /** Over every run the listed connections are those opened by dispatched calls and not closed by later ones. */
  lemma {:induction false} TableIsTheHistory(s: State, run: seq<Step>, t: State, calls: seq<Call>)
    requires Leads(s, run, t) && TableIs(s.conns, calls) && CountersAre(s, calls)
    ensures TableIs(t.conns, calls + CallsOf(Dispatches(s, run, t)))
    decreases |run|
  {
    if run == [] {
      assert calls + [] == calls;
    } else {
      var u := Do(s, run[0]);
      var after := StepInHistory(s, run, t, calls);
      TableIsTheHistory(u, run[1..], t, after);
      if run[0].Dispatch? {
        CallsJoin(calls, Dispatching(s.worker.job, s.conns), Dispatches(u, run[1..], t));
      }
    }
  }

  /** ... and so they are at each dispatch. */
  lemma {:induction false} TableAtDispatch(s: State, run: seq<Step>, t: State, calls: seq<Call>, k: nat)
    requires Leads(s, run, t) && TableIs(s.conns, calls) && CountersAre(s, calls) && k < |Dispatches(s, run, t)|
    ensures TableIs(Dispatches(s, run, t)[k].conns, calls + CallsOf(Dispatches(s, run, t)[..k]))
    decreases |run|
  {
    var u, ds := Do(s, run[0]), Dispatches(s, run, t);
    var after := StepInHistory(s, run, t, calls);
    var later := Dispatches(u, run[1..], t);
    if !run[0].Dispatch? {
      TableAtDispatch(u, run[1..], t, calls, k);
    } else if k == 0 {
      assert calls + CallsOf(ds[..0]) == calls;
    } else {
      TableAtDispatch(u, run[1..], t, after, k - 1);
      CallsJoin(calls, ds[0], later[..k - 1]);
      assert ds[..k] == [ds[0]] + later[..k - 1];
    }
  }

  /** All of it from the start: what ran is told by the calls dispatched alone. */
  lemma RunsAreTheHistory(run: seq<Step>, t: State)
    requires Leads(START, run, t)
    ensures var ds := Dispatches(START, run, t);
            && Begun(t) == JobsOf(ds) && Starts(START, run, t) == QueriesOf(ds)
            && TableIs(t.conns, CallsOf(ds))
            && forall k | 0 <= k < |ds| :: TableIs(ds[k].conns, CallsOf(ds[..k]))
  {
    var ds := Dispatches(START, run, t);
    BegunWereDispatched(START, run, t);
    DispatchedRan(START, run, t);
    assert [] + JobsOf(ds) == JobsOf(ds);
    TableIsTheHistory(START, run, t, []);
    assert [] + CallsOf(ds) == CallsOf(ds);
    forall k | 0 <= k < |ds|
      ensures TableIs(ds[k].conns, CallsOf(ds[..k]))
    {
      TableAtDispatch(START, run, t, [], k);
      assert [] + CallsOf(ds[..k]) == CallsOf(ds[..k]);
    }
  }

  // ---------------------------------------------------------------- progress

  /** The steps the threads owe: everything but new requests, closing the window and spurious wake-ups. */
  predicate Internal(step: Step) {
    step.Notify? || step.NotifyStop? || step.Join? || step.Check? || step.Dispatch? || step.QueryReturns? || step.Post?
  }

  function Rank(s: State): nat {
    6 * |s.queue|
    + (match s.worker
       case Gone => 0 case Asleep => 0 case Checking => 1
       case Finished(_) => 3 case Running(_, _, _) => 4 case Holding(_) => 5)
    + (match s.ui case Idle => 0 case Done => 0 case Joining => 1 case MustNotify => 2 case StopNotify => 3)
  }

  lemma InternalStepRanks(s: State, step: Step)
    requires Enabled(s, step) && Internal(step)
    ensures Rank(Do(s, step)) < Rank(s)
  {
  }

  /** Every internal step brings the threads nearer to rest, so no run of them goes on for ever. */
  lemma {:induction false} InternalRunsEnd(s: State, run: seq<Step>, t: State)
    requires Leads(s, run, t) && forall k | 0 <= k < |run| :: Internal(run[k])
    ensures |run| + Rank(t) <= Rank(s)
    decreases |run|
  {
    if run != [] {
      InternalStepRanks(s, run[0]);
      InternalRunsEnd(Do(s, run[0]), run[1..], t);
    }
  }

  lemma NothingOwed(s: State)
    requires Conserved(s) && NoLostWakeup(s) && s.worker != Checking && !s.worker.Holding? && !s.worker.Running?
    requires !s.worker.Finished? && s.ui != MustNotify && s.ui != StopNotify && !(s.ui == Joining && s.worker == Gone)
    ensures (s.ui == Idle && s.worker == Asleep && s.queue == [] && s.completed == s.accepted) || s.ui == Done
  {
    assert s.completed + [] + [] == s.completed;
  }

  /** Where no internal step is enabled nothing is left to do: either every accepted call was completed and
      answered, or the window was closed and the worker joined.  There is no lost wake-up. */
  lemma NoInternalStepMeansDone(s: State)
    requires Reachable(s)
    requires forall step | Internal(step) :: !Enabled(s, step)
    ensures (s.ui == Idle && s.worker == Asleep && s.queue == [] && s.completed == s.accepted) || s.ui == Done
  {
    ReachableIsSound(s);
    assert !Enabled(s, Notify) && !Enabled(s, NotifyStop) && !Enabled(s, Join) && !Enabled(s, Check);
    assert !Enabled(s, Dispatch) && !Enabled(s, QueryReturns) && !Enabled(s, Post);
    NothingOwed(s);
  }

  lemma {:induction false} StoppedIffClosed(s: State, run: seq<Step>, t: State)
    requires Leads(s, run, t)
    ensures t.stop <==> s.stop || CloseWindow in run
    decreases |run|
  {
    if run != [] {
      StoppedIffClosed(Do(s, run[0]), run[1..], t);
    }
  }

  /** Once at rest, the worker was joined if the window was closed; if not, every call submitted was completed, and
      each has its own reply. */
  lemma AtRest(run: seq<Step>, t: State)
    requires Leads(START, run, t) && forall step | Internal(step) :: !Enabled(t, step)
    ensures if CloseWindow in run then t.ui == Done && t.worker == Gone
            else t.ui == Idle && t.completed == Submitted(run) && t.posted == Tickets(Submitted(run))
  {
    assert Reachable(t);
    ReachableIsSound(t);
    NoInternalStepMeansDone(t);
    StoppedIffClosed(START, run, t);
    SubmittedAreAccepted(START, run, t);
    assert [] + Submitted(run) == Submitted(run);
  }

  // ---------------------------------------------------------------- the code: one method per atomic action

  /** What the UI thread can make of a bound call's arguments. */
  datatype Request = Malformed | OpCancel(conn: int, hook: Status) | ForWorker(call: Call)

  /** The globals of main.cc and of the core they reach. */
  class Bridge {
    var jobs: seq<Job>
    var stop: bool
    var ui: Ui
    var worker: Worker
    var conns: map<int, Ref>
    var nextConn: int
    var registry: map<int, Ref>
    var nextHandle: nat  // the handle the driver's next connect yields
    ghost var disconnected: set<nat>
    ghost var accepted: seq<Job>
    ghost var completed: seq<Job>
    ghost var posted: seq<Reply>
    ghost var inline: seq<Reply>
    ghost var signalled: seq<nat>

    ghost function View(): State
      reads this
    {
      State(ui, worker, jobs, stop, conns, nextConn, nextHandle, disconnected, registry,
            accepted, completed, posted, inline, signalled)
    }

    constructor ()
      ensures View() == START
    {
      jobs, stop, ui, worker := [], false, Idle, Checking;
      conns, nextConn, registry, nextHandle, disconnected := map[], 1, map[], 0, {};
      accepted, completed, posted, inline, signalled := [], [], [], [], [];
    }

    /** `dbcore_op_cancel` (OpRegistry.Table.OpCancel), atomic because the registry lock is held across the hook. */
    method CancelOp(conn: int, hook: Status) returns (st: Status)
      modifies this`signalled
      ensures st == CancelStatus(registry, conn, hook)
      ensures signalled == if Hits(registry, conn) then old(signalled) + [registry[conn].handle] else old(signalled)
    {
      if conn !in registry {
        return ErrParam;
      }
      st := ErrUnsupported;
      if registry[conn].cancels {
        st := hook;
        signalled := signalled + [registry[conn].handle];
      }
    }

    /** `rpc_handler`, up to the release of the lock: only a queued call leaves a notification owing. */
    method RpcHandler(ticket: nat, request: Request)
      requires ui == Idle
      modifies this
      ensures View() == Do(old(View()), match request
                                        case Malformed => BadCall(ticket)
                                        case OpCancel(conn, hook) => Cancel(ticket, conn, hook)
                                        case ForWorker(call) => Submit(Job(ticket, call)))
    {
      if request.Malformed? {
        inline := inline + [Refused(ticket)];
        return;
      }
      if request.OpCancel? {
        var st := CancelOp(request.conn, request.hook);
        inline := inline + [Canceled(ticket, st == Success)];
        return;
      }
      var job := Job(ticket, request.call);
      jobs := jobs + [job];
      ui := MustNotify;
      accepted := accepted + [job];
    }

    /** `notify_one` after a push, or after the stop flag was set. */
    method NotifyOne()
      requires ui == MustNotify || ui == StopNotify
      modifies this
      ensures View() == Do(old(View()), if old(ui) == MustNotify then Notify else NotifyStop)
    {
      if worker == Asleep {
        worker := Checking;
      }
      ui := if ui == MustNotify then Idle else Joining;
    }

    /** After `webview_run` returns. */
    method StopWorker()
      requires ui == Idle
      modifies this
      ensures View() == Do(old(View()), CloseWindow)
    {
      stop := true;
      ui := StopNotify;
    }

    /** One evaluation of the wait condition by `rpc_worker_loop`, under the lock. */
    method WaitAndPop()
      requires worker == Checking
      modifies this
      ensures View() == Do(old(View()), Check)
    {
      if !(stop || jobs != []) {
        worker := Asleep;
      } else if stop {
        worker := Gone;
      } else {
        worker := Holding(jobs[0]);
        jobs := jobs[1..];
      }
    }

    method StartQuery(job: Job, c: int)
      requires job.call == Query(c)
      modifies this`worker, this`registry
      ensures View() == Dispatched(old(View()), job)
    {
      if c in conns {
        registry := Begin(registry, c, conns[c]);
        worker := Running(job, c, conns[c]);
      } else {
        worker := Finished(job);
      }
    }

    method OpenConn(job: Job, cancels: bool)
      requires job.call == Open(cancels)
      modifies this`worker, this`conns, this`nextConn, this`nextHandle
      ensures View() == Dispatched(old(View()), job)
    {
      conns := conns[nextConn := Ref(nextHandle, cancels)];
      nextConn, nextHandle := nextConn + 1, nextHandle + 1;
      worker := Finished(job);
    }

    method CloseConn(job: Job, c: int)
      requires job.call == Close(c)
      modifies this`worker, this`conns, this`disconnected
      ensures View() == Dispatched(old(View()), job)
    {
      if c in conns {
        disconnected := disconnected + {conns[c].handle};
        conns := conns - {c};
      }
      worker := Finished(job);
    }

    /** `dispatch_traced`: all of the call, or for a query everything up to and with `dbcore_op_begin`. */
    method DispatchCall()
      requires worker.Holding?
      modifies this
      ensures View() == Do(old(View()), Dispatch)
    {
      var job := worker.job;
      match job.call {
        case Query(c) => StartQuery(job, c);
        case Open(cancels) => OpenConn(job, cancels);
        case Close(c) => CloseConn(job, c);
        case Other => worker := Finished(job);
      }
    }

    /** The query came back: `dbcore_op_end`. */
    method OpEnd()
      requires worker.Running?
      modifies this
      ensures View() == Do(old(View()), QueryReturns)
    {
      registry := registry - {worker.conn};
      worker := Finished(worker.job);
    }

    /** `webview_dispatch` of the reply. */
    method PostReply()
      requires worker.Finished?
      modifies this
      ensures View() == Do(old(View()), Post)
    {
      completed := completed + [worker.job];
      posted := posted + [Posted(worker.job.ticket)];
      worker := Checking;
    }

    /** A wake-up of the worker that nobody sent. */
    method WakeSpuriously()
      requires worker == Asleep
      modifies this
      ensures View() == Do(old(View()), Spurious)
    {
      worker := Checking;
    }

    /** The join returns once the worker did. */
    method JoinWorker()
      requires ui == Joining && worker == Gone
      modifies this
      ensures View() == Do(old(View()), Join)
    {
      ui := Done;
    }

    method Perform(step: Step)
      requires Enabled(View(), step)
      modifies this
      ensures View() == Do(old(View()), step)
    {
      match step {
        case Submit(job) => RpcHandler(job.ticket, ForWorker(job.call));
        case Cancel(ticket, conn, hook) => RpcHandler(ticket, OpCancel(conn, hook));
        case BadCall(ticket) => RpcHandler(ticket, Malformed);
        case Notify => NotifyOne();
        case CloseWindow => StopWorker();
        case NotifyStop => NotifyOne();
        case Join => JoinWorker();
        case Check => WaitAndPop();
        case Spurious => WakeSpuriously();
        case Dispatch => DispatchCall();
        case QueryReturns => OpEnd();
        case Post => PostReply();
      }
    }

    /** Any interleaving of the two threads: their actions go through the states of the run. */
    method Play(run: seq<Step>, ghost t: State)
      requires Leads(View(), run, t)
      modifies this
      ensures View() == t
      ensures old(Reachable(View())) ==> Inv(View())
    {
      ghost var s := View();
      for i := 0 to |run|
        invariant Leads(View(), run[i..], t)
      {
        assert run[i..][0] == run[i] && run[i..][1..] == run[i + 1..];
        Perform(run[i]);
      }
      if Reachable(s) {
        ReachableIsSound(s);
        RunKeepsInv(s, run, t);
      }
    }
  }
}
