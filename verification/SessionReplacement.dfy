/** Session replacement in frontend/src/App.tsx.  A timer and any number of failed calls may each try to
    replace a dead session; the user may connect and disconnect meanwhile.  Code between two awaits runs
    without interruption, so each such stretch is one step, and a run is any interleaving of enabled steps.
    Sessions are numbered in the order in which they were opened. */
module SessionReplacement {
  import opened Prelude

  /** `ActiveConnection`: the saved connection, its session, and what the lost band shows. */
  datatype Conn = Conn(defId: string, connId: nat, lost: bool, reconnecting: bool, retry: bool)

  /** One run of `replaceSession`, up to the answer it settles with. */
  datatype Attempt = Attempt(dead: nat, byCall: bool, settled: bool, to: Option<nat>, resumed: bool)

  /** A call waiting on the attempt another call started. */
  datatype Waiter = Waiter(dead: nat, attempt: nat, answered: bool)

  /** A `disconnect` between its close and the removal by defId. */
  datatype Leaving = Leaving(defId: string, connId: nat, done: bool)

  /** `onConnect`, at most one at a time: closing the stale session, or opening the fresh one. */
  datatype Connecting = Idle | Closing(defId: string, connId: nat) | Fresh(defId: string)

  /** What a call that met the dead session was told. */
  datatype Told = Told(dead: nat, attempt: nat, to: Option<nat>)

  datatype App = App(
    list: seq<Conn>, replacing: map<nat, nat>, attempts: seq<Attempt>, waiters: seq<Waiter>,
    connecting: Connecting, leaving: seq<Leaving>,
    next: nat, closed: set<nat>, installed: map<nat, nat>, told: seq<Told>)

  const START := App([], map[], [], [], Idle, [], 0, {}, map[], [])

  datatype Step =
    | CallLost(dead: nat, may: bool, saved: bool)
    | TimerFires(dead: nat, saved: bool)
    | OpenSucceeds(attempt: nat)
    | OpenFails(attempt: nat)
    | Resume(attempt: nat)
    | Answer(waiter: nat)
    | Disconnect(defId: string)
    | Disconnected(k: nat)
    | Connect(defId: string, force: bool)
    | ConnectClosed
    | ConnectOpened
    | ConnectFailed

  // ---------------------------------------------------------------- the list

  /** `list.find((o) => o.connId === id)`, by its place. */
  function Find(list: seq<Conn>, id: nat): (r: Option<nat>)
    ensures r.Some? ==> r.value < |list| && list[r.value].connId == id
    ensures r.None? ==> forall k | 0 <= k < |list| :: list[k].connId != id
  {
    if list == [] then None
    else if list[0].connId == id then Some(0)
    else
      var r := Find(list[1..], id);
      if r.Some? then Some(r.value + 1) else None
  }

  function FindDef(list: seq<Conn>, defId: string): (r: Option<nat>)
    ensures r.Some? ==> r.value < |list| && list[r.value].defId == defId
    ensures r.None? ==> forall k | 0 <= k < |list| :: list[k].defId != defId
  {
    if list == [] then None
    else if list[0].defId == defId then Some(0)
    else
      var r := FindDef(list[1..], defId);
      if r.Some? then Some(r.value + 1) else None
  }

  /** `list.map((o) => o.connId === id ? { ...o, lost, reconnecting, retryAt } : o)`. */
  function Mark(list: seq<Conn>, id: nat, lost: bool, reconnecting: bool, retry: bool): seq<Conn> {
    seq(|list|, k requires 0 <= k < |list| =>
      if list[k].connId == id then list[k].(lost := lost, reconnecting := reconnecting, retry := retry) else list[k])
  }

  function SetReconnecting(list: seq<Conn>, id: nat): seq<Conn> {
    seq(|list|, k requires 0 <= k < |list| =>
      if list[k].connId == id then list[k].(reconnecting := true) else list[k])
  }

  /** The fresh session in the place of the dead one. */
  function Install(list: seq<Conn>, dead: nat, id: nat): seq<Conn> {
    seq(|list|, k requires 0 <= k < |list| =>
      if list[k].connId == dead then Conn(list[k].defId, id, false, false, false) else list[k])
  }

  /** `list.filter((o) => o.defId !== defId)`. */
  function Without(list: seq<Conn>, defId: string): seq<Conn> {
    if list == [] then []
    else (if list[0].defId != defId then [list[0]] else []) + Without(list[1..], defId)
  }

  // ---------------------------------------------------------------- the steps

  predicate Enabled(s: App, step: Step) {
    match step
    case CallLost(_, _, _) => true
    case TimerFires(dead, _) =>
      var k := Find(s.list, dead);
      k.Some? && s.list[k.value].lost && !s.list[k.value].reconnecting && s.list[k.value].retry
    case OpenSucceeds(a) => a < |s.attempts| && !s.attempts[a].settled
    case OpenFails(a) => a < |s.attempts| && !s.attempts[a].settled
    case Resume(a) => a < |s.attempts| && s.attempts[a].byCall && s.attempts[a].settled && !s.attempts[a].resumed
    case Answer(w) => w < |s.waiters| && !s.waiters[w].answered && s.waiters[w].attempt < |s.attempts|
                      && s.attempts[s.waiters[w].attempt].settled
    case Disconnect(_) => true
    case Disconnected(k) => k < |s.leaving| && !s.leaving[k].done
    case Connect(_, _) => true
    case ConnectClosed => s.connecting.Closing?
    case ConnectOpened => s.connecting.Fresh?
    case ConnectFailed => s.connecting.Fresh?
  }

  /** `replaceSession` up to its await; without a saved connection it settles at once. */
  function StartAttempt(s: App, dead: nat, byCall: bool, saved: bool): App {
    if saved then
      s.(list := SetReconnecting(s.list, dead), attempts := s.attempts + [Attempt(dead, byCall, false, None, false)])
    else
      s.(list := Mark(s.list, dead, true, false, false),
         attempts := s.attempts + [Attempt(dead, byCall, true, None, false)])
  }

  /** The listener: join the attempt under way, ignore a session not listed, or start an attempt. */
  function Lost(s: App, dead: nat, may: bool, saved: bool): App {
    if dead in s.replacing then s.(waiters := s.waiters + [Waiter(dead, s.replacing[dead], false)])
    else if Find(s.list, dead).None? then s
    else if !may then s.(list := Mark(s.list, dead, true, false, false))
    else
      var s1 := StartAttempt(s, dead, true, saved);
      s1.(replacing := s1.replacing[dead := |s.attempts|])
  }

  /** The fresh session opened: installed if the dead one is still listed, else closed as nobody's. */
  function Opened(s: App, a: nat): App
    requires a < |s.attempts|
  {
    var dead := s.attempts[a].dead;
    if Find(s.list, dead).None? then
      s.(next := s.next + 1, closed := s.closed + {s.next},
         attempts := s.attempts[a := s.attempts[a].(settled := true)])
    else
      s.(next := s.next + 1, closed := s.closed + {dead}, list := Install(s.list, dead, s.next),
         installed := s.installed[dead := s.next],
         attempts := s.attempts[a := s.attempts[a].(settled := true, to := Some(s.next))])
  }

  function Do(s: App, step: Step): App
    requires Enabled(s, step)
  {
    match step
    case CallLost(dead, may, saved) => Lost(s, dead, may, saved)
    case TimerFires(dead, saved) => StartAttempt(s, dead, false, saved)
    case OpenSucceeds(a) => Opened(s, a)
    case OpenFails(a) =>
      s.(list := Mark(s.list, s.attempts[a].dead, true, false, true),
         attempts := s.attempts[a := s.attempts[a].(settled := true)])
    case Resume(a) =>
      var at := s.attempts[a];
      s.(replacing := if at.to.None? then s.replacing - {at.dead} else s.replacing,
         attempts := s.attempts[a := at.(resumed := true)], told := s.told + [Told(at.dead, a, at.to)])
    case Answer(w) =>
      var wt := s.waiters[w];
      s.(waiters := s.waiters[w := wt.(answered := true)],
         told := s.told + [Told(wt.dead, wt.attempt, s.attempts[wt.attempt].to)])
    case Disconnect(defId) =>
      var k := FindDef(s.list, defId);
      if k.None? then s
      else
        var id := s.list[k.value].connId;
        s.(closed := s.closed + {id}, leaving := s.leaving + [Leaving(defId, id, false)])
    case Disconnected(k) =>
      var l := s.leaving[k];
      s.(list := Without(s.list, l.defId), leaving := s.leaving[k := l.(done := true)])
    case Connect(defId, force) =>
      var k := FindDef(s.list, defId);
      if s.connecting != Idle || (k.Some? && !force) then s
      else if k.Some? then
        s.(connecting := Closing(defId, s.list[k.value].connId), closed := s.closed + {s.list[k.value].connId})
      else s.(connecting := Fresh(defId))
    case ConnectClosed =>
      var c := s.connecting;
      s.(list := Without(s.list, c.defId), connecting := Fresh(c.defId))
    case ConnectOpened =>
      s.(list := s.list + [Conn(s.connecting.defId, s.next, false, false, false)],
         next := s.next + 1, connecting := Idle)
    case ConnectFailed => s.(connecting := Idle)
  }

  predicate Leads(s: App, run: seq<Step>, t: App)
    decreases |run|
  {
    if run == [] then s == t
    else Enabled(s, run[0]) && Leads(Do(s, run[0]), run[1..], t)
  }

  ghost predicate Reachable(s: App) {
    exists run :: Leads(START, run, s)
  }

  // ---------------------------------------------------------------- the invariant

  predicate Unique(list: seq<Conn>) {
    forall j, k | 0 <= j < k < |list| :: list[j].defId != list[k].defId && list[j].connId != list[k].connId
  }

  /** One entry per saved connection and per session; only sessions that were opened are listed or closed. */
  predicate ListSound(s: App) {
    && Unique(s.list)
    && (forall k | 0 <= k < |s.list| :: s.list[k].connId < s.next) && (forall id <- s.closed :: id < s.next)
    && (s.connecting.Fresh? ==> forall k | 0 <= k < |s.list| :: s.list[k].defId != s.connecting.defId)
  }

  /** A session that was replaced is off the list for good, and whoever replaced it says so. */
  predicate ReplacedSound(s: App) {
    && (forall d <- s.installed ::
          d < s.next && s.installed[d] < s.next && forall k | 0 <= k < |s.list| :: s.list[k].connId != d)
    && (forall a | 0 <= a < |s.attempts| :: s.attempts[a].to.Some? ==>
          s.attempts[a].settled && s.attempts[a].dead in s.installed
          && s.installed[s.attempts[a].dead] == s.attempts[a].to.value)
  }

  predicate JoinedSound(attempts: seq<Attempt>, replacing: map<nat, nat>) {
    forall d <- replacing :: replacing[d] < |attempts| && attempts[replacing[d]].dead == d
  }

  predicate WaitersSound(attempts: seq<Attempt>, waiters: seq<Waiter>) {
    forall w | 0 <= w < |waiters| ::
      waiters[w].attempt < |attempts| && attempts[waiters[w].attempt].dead == waiters[w].dead
  }

  predicate AnswersSound(attempts: seq<Attempt>, told: seq<Told>) {
    forall t | 0 <= t < |told| ::
      && told[t].attempt < |attempts| && attempts[told[t].attempt].settled
      && attempts[told[t].attempt].to == told[t].to && attempts[told[t].attempt].dead == told[t].dead
  }

  /** Attempts joined by calls are attempts on their session, and what calls were told is how those settled. */
  predicate ToldSound(s: App) {
    && JoinedSound(s.attempts, s.replacing) && WaitersSound(s.attempts, s.waiters)
    && AnswersSound(s.attempts, s.told)
  }

  ghost predicate Holds(list: seq<Conn>, id: nat) {
    exists k :: 0 <= k < |list| && list[k].connId == id
  }

  ghost predicate Listed(s: App, id: nat) {
    Holds(s.list, id)
  }

  /** A removal under way has asked for the close of the session it found. */
  predicate ClosesAsked(s: App) {
    && (forall k | 0 <= k < |s.leaving| :: s.leaving[k].connId in s.closed)
    && (s.connecting.Closing? ==> s.connecting.connId in s.closed)
  }

  ghost predicate Inv(s: App) {
    ListSound(s) && ReplacedSound(s) && ClosesAsked(s) && ToldSound(s)
  }

  lemma {:induction false} WithoutMembers(list: seq<Conn>, defId: string)
    ensures forall c :: c in Without(list, defId) <==> c in list && c.defId != defId
  {
    if list != [] {
      WithoutMembers(list[1..], defId);
    }
  }

  lemma {:induction false} WithoutUnique(list: seq<Conn>, defId: string)
    requires Unique(list)
    ensures Unique(Without(list, defId))
  {
    if list != [] {
      var rest := Without(list[1..], defId);
      WithoutUnique(list[1..], defId);
      WithoutMembers(list[1..], defId);
      forall k | 0 <= k < |rest|
        ensures rest[k].defId != list[0].defId && rest[k].connId != list[0].connId
      {
        assert rest[k] in list[1..];
      }
    }
  }

  lemma WithoutHeld(list: seq<Conn>, defId: string, id: nat) returns (j: nat)
    requires Holds(Without(list, defId), id)
    ensures j < |list| && list[j].connId == id && list[j].defId != defId
  {
    var rest := Without(list, defId);
    var i :| 0 <= i < |rest| && rest[i].connId == id;
    WithoutMembers(list, defId);
    assert rest[i] in rest;
    j :| j < |list| && list[j] == rest[i];
  }

  lemma WithoutHolds(list: seq<Conn>, defId: string, j: nat)
    requires j < |list| && list[j].defId != defId
    ensures Holds(Without(list, defId), list[j].connId)
  {
    WithoutMembers(list, defId);
    assert list[j] in list;
    var i :| 0 <= i < |Without(list, defId)| && Without(list, defId)[i] == list[j];
    assert Without(list, defId)[i].connId == list[j].connId;
  }

  /** Marks may change, as long as every entry keeps its place. */
  lemma MarkKeeps(s: App, list: seq<Conn>)
    requires |list| == |s.list|
    requires forall k | 0 <= k < |list| :: list[k].defId == s.list[k].defId && list[k].connId == s.list[k].connId
    ensures ListSound(s) ==> ListSound(s.(list := list))
    ensures ReplacedSound(s) ==> ReplacedSound(s.(list := list))
  {
  }

  lemma RemovalKeeps(s: App, defId: string)
    requires ListSound(s) && ReplacedSound(s)
    ensures var t := s.(list := Without(s.list, defId));
            ListSound(t) && ReplacedSound(t) && forall k | 0 <= k < |t.list| :: t.list[k].defId != defId
  {
    var t := s.(list := Without(s.list, defId));
    WithoutMembers(s.list, defId);
    WithoutUnique(s.list, defId);
    forall k | 0 <= k < |t.list|
      ensures t.list[k] in s.list && t.list[k].defId != defId
    {
      assert t.list[k] in t.list;
    }
  }

  lemma InstallKeeps(list: seq<Conn>, dead: nat, next: nat)
    requires Unique(list) && dead < next && forall k | 0 <= k < |list| :: list[k].connId < next
    ensures var after := Install(list, dead, next);
            && Unique(after) && |after| == |list|
            && forall k | 0 <= k < |after| ::
                 && after[k].defId == list[k].defId && after[k].connId != dead
                 && (after[k].connId == list[k].connId || after[k].connId == next)
  {
  }

  lemma OpenedKeepsList(s: App, a: nat)
    requires ListSound(s) && a < |s.attempts|
    ensures ListSound(Opened(s, a))
  {
    var dead := s.attempts[a].dead;
    if Find(s.list, dead).Some? {
      InstallKeeps(s.list, dead, s.next);
    }
  }

  lemma OpenedKeepsLists(s: App, a: nat)
    requires ListSound(s) && ReplacedSound(s) && a < |s.attempts| && !s.attempts[a].settled
    ensures ListSound(Opened(s, a)) && ReplacedSound(Opened(s, a))
  {
    OpenedKeepsList(s, a);
    var dead := s.attempts[a].dead;
    if Find(s.list, dead).Some? {
      assert dead !in s.installed;
      InstallKeeps(s.list, dead, s.next);
    }
  }

  /** Starting an attempt, or noting a loss, changes marks and adds an attempt that has no session yet. */
  lemma StartKeepsLists(s: App, t: App)
    requires ListSound(s) && ReplacedSound(s)
    requires |t.list| == |s.list|
    requires forall k | 0 <= k < |t.list| :: t.list[k].defId == s.list[k].defId && t.list[k].connId == s.list[k].connId
    requires t == s.(list := t.list, attempts := t.attempts, replacing := t.replacing, waiters := t.waiters)
    requires s.attempts <= t.attempts && forall a | |s.attempts| <= a < |t.attempts| :: t.attempts[a].to.None?
    ensures ListSound(t) && ReplacedSound(t)
  {
    MarkKeeps(s, t.list);
  }

  lemma StartedKeepsLists(s: App, step: Step)
    requires ListSound(s) && ReplacedSound(s) && Enabled(s, step) && (step.CallLost? || step.TimerFires?)
    ensures ListSound(Do(s, step)) && ReplacedSound(Do(s, step))
  {
    StartKeepsLists(s, Do(s, step));
  }

  lemma AppendKeepsLists(s: App)
    requires ListSound(s) && ReplacedSound(s) && Enabled(s, ConnectOpened)
    ensures ListSound(Do(s, ConnectOpened)) && ReplacedSound(Do(s, ConnectOpened))
  {
  }

  lemma FailedKeepsLists(s: App, a: nat)
    requires ListSound(s) && ReplacedSound(s) && Enabled(s, OpenFails(a))
    ensures ListSound(Do(s, OpenFails(a))) && ReplacedSound(Do(s, OpenFails(a)))
  {
    MarkKeeps(s, Do(s, OpenFails(a)).list);
  }

  lemma RemovedKeepsLists(s: App, step: Step)
    requires ListSound(s) && ReplacedSound(s) && Enabled(s, step) && (step.Disconnected? || step.ConnectClosed?)
    ensures ListSound(Do(s, step)) && ReplacedSound(Do(s, step))
  {
    RemovalKeeps(s, if step.Disconnected? then s.leaving[step.k].defId else s.connecting.defId);
  }

  lemma SameLists(s: App, t: App)
    requires t.list == s.list && t.next == s.next && t.installed == s.installed && |t.attempts| == |s.attempts|
    requires forall id <- t.closed :: id < s.next
    requires forall a | 0 <= a < |s.attempts| :: t.attempts[a] == s.attempts[a].(resumed := t.attempts[a].resumed)
    requires t.connecting.Fresh? ==> t.connecting == s.connecting || FindDef(s.list, t.connecting.defId).None?
    ensures ListSound(s) ==> ListSound(t)
    ensures ReplacedSound(s) ==> ReplacedSound(t)
  {
  }

  lemma OtherKeepsLists(s: App, step: Step)
    requires ListSound(s) && ReplacedSound(s) && Enabled(s, step)
    requires step.Resume? || step.Answer? || step.Disconnect? || step.Connect? || step.ConnectFailed?
    ensures ListSound(Do(s, step)) && ReplacedSound(Do(s, step))
  {
    SameLists(s, Do(s, step));
  }

  lemma StepKeepsLists(s: App, step: Step)
    requires ListSound(s) && ReplacedSound(s) && Enabled(s, step)
    ensures ListSound(Do(s, step)) && ReplacedSound(Do(s, step))
  {
    match step {
      case CallLost(_, _, _) => StartedKeepsLists(s, step);
      case TimerFires(_, _) => StartedKeepsLists(s, step);
      case OpenSucceeds(a) => OpenedKeepsLists(s, a);
      case OpenFails(a) => FailedKeepsLists(s, a);
      case Disconnected(k) => RemovedKeepsLists(s, step);
      case ConnectClosed => RemovedKeepsLists(s, step);
      case ConnectOpened => AppendKeepsLists(s);
      case _ => OtherKeepsLists(s, step);
    }
  }

  predicate Settled(was: Attempt, now: Attempt) {
    now.settled && now.to == was.to
  }

  /** Attempts keep their session, and, once settled, what they settled with. */
  predicate Extends(was: seq<Attempt>, now: seq<Attempt>) {
    && |was| <= |now|
    && forall a | 0 <= a < |was| :: now[a].dead == was[a].dead && (was[a].settled ==> Settled(was[a], now[a]))
  }

  predicate SameEntries(list: seq<Conn>, other: seq<Conn>) {
    && |other| == |list|
    && forall j | 0 <= j < |list| :: other[j].defId == list[j].defId && other[j].connId == list[j].connId
  }

  lemma StartStays(s: App, dead: nat, byCall: bool, saved: bool)
    ensures var t := StartAttempt(s, dead, byCall, saved);
            SameEntries(s.list, t.list) && t.closed == s.closed && t.next == s.next && Extends(s.attempts, t.attempts)
  {
  }

  lemma LossStays(s: App, dead: nat, may: bool, saved: bool)
    ensures var t := Lost(s, dead, may, saved);
            SameEntries(s.list, t.list) && t.closed == s.closed && t.next == s.next && Extends(s.attempts, t.attempts)
  {
    StartStays(s, dead, true, saved);
  }

  lemma AttemptsExtend(s: App, step: Step)
    requires Enabled(s, step)
    ensures Extends(s.attempts, Do(s, step).attempts)
  {
    match step
    case CallLost(dead, may, saved) => LossStays(s, dead, may, saved);
    case TimerFires(dead, saved) => StartStays(s, dead, false, saved);
    case _ =>
  }

  lemma ExtendsKeepsTold(was: seq<Attempt>, now: seq<Attempt>, s: App)
    requires Extends(was, now) && s.attempts == was && ToldSound(s)
    ensures ToldSound(s.(attempts := now))
  {
    assert JoinedSound(now, s.replacing) && WaitersSound(now, s.waiters);
    assert AnswersSound(now, s.told) by {
      assert forall t | 0 <= t < |s.told| :: Settled(was[s.told[t].attempt], now[s.told[t].attempt]);
    }
  }

  lemma JoinKeeps(attempts: seq<Attempt>, replacing: map<nat, nat>, dead: nat, a: nat)
    requires JoinedSound(attempts, replacing) && a < |attempts| && attempts[a].dead == dead
    ensures JoinedSound(attempts, replacing[dead := a]) && JoinedSound(attempts, replacing - {dead})
  {
  }

  lemma WaiterKeeps(attempts: seq<Attempt>, waiters: seq<Waiter>, w: Waiter)
    requires WaitersSound(attempts, waiters) && w.attempt < |attempts| && attempts[w.attempt].dead == w.dead
    ensures WaitersSound(attempts, waiters + [w])
  {
  }

  lemma AnswerKeeps(attempts: seq<Attempt>, told: seq<Told>, a: nat)
    requires AnswersSound(attempts, told) && a < |attempts| && attempts[a].settled
    ensures AnswersSound(attempts, told + [Told(attempts[a].dead, a, attempts[a].to)])
  {
  }

  lemma LossKeepsTold(s: App, dead: nat, may: bool, saved: bool)
    requires ToldSound(s)
    ensures ToldSound(Lost(s, dead, may, saved))
  {
    var t := Lost(s, dead, may, saved);
    AttemptsExtend(s, CallLost(dead, may, saved));
    ExtendsKeepsTold(s.attempts, t.attempts, s);
    if dead in s.replacing {
      WaiterKeeps(s.attempts, s.waiters, Waiter(dead, s.replacing[dead], false));
    } else if |t.attempts| > |s.attempts| {
      JoinKeeps(t.attempts, s.replacing, dead, |s.attempts|);
    }
  }

  lemma AnswersKeepTold(s: App, step: Step)
    requires ToldSound(s) && Enabled(s, step) && (step.Resume? || step.Answer?)
    ensures ToldSound(Do(s, step))
  {
    var t := Do(s, step);
    AttemptsExtend(s, step);
    ExtendsKeepsTold(s.attempts, t.attempts, s);
    if step.Resume? {
      AnswerKeeps(t.attempts, s.told, step.attempt);
      JoinKeeps(t.attempts, s.replacing, s.attempts[step.attempt].dead, step.attempt);
    } else {
      AnswerKeeps(t.attempts, s.told, s.waiters[step.waiter].attempt);
    }
  }

  lemma StepKeepsTold(s: App, step: Step)
    requires ToldSound(s) && Enabled(s, step)
    ensures ToldSound(Do(s, step))
  {
    if step.CallLost? {
      LossKeepsTold(s, step.dead, step.may, step.saved);
    } else if step.Resume? || step.Answer? {
      AnswersKeepTold(s, step);
    } else {
      var t := Do(s, step);
      AttemptsExtend(s, step);
      ExtendsKeepsTold(s.attempts, t.attempts, s);
      assert t.told == s.told && t.waiters == s.waiters && t.replacing == s.replacing;
    }
  }

  lemma StepKeepsAsked(s: App, step: Step)
    requires ClosesAsked(s) && Enabled(s, step)
    ensures ClosesAsked(Do(s, step))
  {
  }

  lemma StepKeepsInv(s: App, step: Step)
    requires Inv(s) && Enabled(s, step)
    ensures Inv(Do(s, step))
  {
    StepKeepsLists(s, step);
    StepKeepsTold(s, step);
    StepKeepsAsked(s, step);
  }

  lemma {:induction false} RunKeepsInv(s: App, run: seq<Step>, t: App)
    requires Inv(s) && Leads(s, run, t)
    ensures Inv(t)
    decreases |run|
  {
    if run != [] {
      StepKeepsInv(s, run[0]);
      RunKeepsInv(Do(s, run[0]), run[1..], t);
    }
  }

  lemma ReachableIsSound(s: App)
    requires Reachable(s)
    ensures Inv(s)
  {
    var run :| Leads(START, run, s);
    RunKeepsInv(START, run, s);
  }

  // ---------------------------------------------------------------- what competing replacements guarantee

  /** The open list never holds two entries of one saved connection, nor of one session. */
  lemma OneEntryEach(s: App)
    requires Reachable(s)
    ensures forall j, k | 0 <= j < k < |s.list| ::
              s.list[j].defId != s.list[k].defId && s.list[j].connId != s.list[k].connId
  {
    ReachableIsSound(s);
  }

  /** A dead session is replaced at most once: whatever happens after, its replacement stays the one. */
  lemma {:induction false} ReplacedOnce(s: App, run: seq<Step>, t: App, dead: nat)
    requires Inv(s) && Leads(s, run, t) && dead in s.installed
    ensures dead in t.installed && t.installed[dead] == s.installed[dead]
    decreases |run|
  {
    if run != [] {
      StepKeepsInv(s, run[0]);
      if run[0].OpenSucceeds? {
        assert Find(s.list, dead).None?;
      }
      ReplacedOnce(Do(s, run[0]), run[1..], t, dead);
    }
  }

  /** An attempt whose session opens either puts it in the dead one's place, asking for the close of the dead
      one, or, when the dead one is listed no more, asks for the close of the session it opened. */
  lemma WinnerOrClosed(s: App, a: nat)
    requires Reachable(s) && Enabled(s, OpenSucceeds(a))
    ensures var t := Do(s, OpenSucceeds(a));
            var dead := s.attempts[a].dead;
            if Listed(s, dead) then
              && Listed(t, s.next) && !Listed(t, dead) && dead in t.closed && t.attempts[a].to == Some(s.next)
              && (forall k | 0 <= k < |s.list| ::
                    t.list[k] == if s.list[k].connId == dead then Conn(s.list[k].defId, s.next, false, false, false)
                                 else s.list[k])
            else t.list == s.list && s.next in t.closed && !Listed(t, s.next) && t.attempts[a].to.None?
  {
    ReachableIsSound(s);
    var k := Find(s.list, s.attempts[a].dead);
    if k.Some? {
      assert Do(s, OpenSucceeds(a)).list[k.value].connId == s.next;
    }
  }

  /** Calls that met the same dead session and were told of a new one were told of the same one, the one
      installed; calls that shared an attempt were told the same in any case. */
  lemma CallsAgree(s: App, i: nat, j: nat)
    requires Reachable(s) && i < |s.told| && j < |s.told|
    ensures s.told[i].attempt == s.told[j].attempt ==> s.told[i].to == s.told[j].to
    ensures s.told[i].dead == s.told[j].dead && s.told[i].to.Some? && s.told[j].to.Some? ==>
              s.told[i].to == s.told[j].to
    ensures s.told[i].to.Some? ==> s.told[i].dead in s.installed && s.told[i].to == Some(s.installed[s.told[i].dead])
  {
    ReachableIsSound(s);
  }

  lemma {:induction false} SettledStays(s: App, run: seq<Step>, t: App, a: nat)
    requires Leads(s, run, t) && a < |s.attempts| && s.attempts[a].settled
    ensures a < |t.attempts| && Settled(s.attempts[a], t.attempts[a]) && t.attempts[a].dead == s.attempts[a].dead
    decreases |run|
  {
    if run != [] {
      AttemptsExtend(s, run[0]);
      SettledStays(Do(s, run[0]), run[1..], t, a);
    }
  }

  /** What a call was told about an attempt whose session opened, by then or later: no session, exactly when the
      dead one was off the list at that moment, and the one that opened in any other case. */
  lemma ToldOfAnOpened(s: App, a: nat, run: seq<Step>, t: App, i: nat)
    requires Reachable(s) && Enabled(s, OpenSucceeds(a)) && Leads(Do(s, OpenSucceeds(a)), run, t)
    requires i < |t.told| && t.told[i].attempt == a
    ensures t.told[i] == Told(s.attempts[a].dead, a, if Listed(s, s.attempts[a].dead) then Some(s.next) else None)
  {
    var s1, dead := Do(s, OpenSucceeds(a)), s.attempts[a].dead;
    ReachableIsSound(s);
    StepKeepsInv(s, OpenSucceeds(a));
    RunKeepsInv(s1, run, t);
    SettledStays(s1, run, t, a);
    if k :| 0 <= k < |s.list| && s.list[k].connId == dead {
      assert Find(s.list, dead).Some?;
    }
  }

  // ---------------------------------------------------------------- every call is answered

  /** The attempt whose end a call waits for that meets a dead session, if it waits: the one under way for it, or
      its own. */
  function Met(s: App, step: Step): Option<(nat, nat)> {
    match step
    case CallLost(dead, may, _) =>
      if dead in s.replacing then Some((dead, s.replacing[dead]))
      else if Find(s.list, dead).Some? && may then Some((dead, |s.attempts|))
      else None
    case _ => None
  }

  /** How many calls of a run met the dead session `d` and wait for the attempt `a`. */
  function MetAlong(s: App, run: seq<Step>, t: App, d: nat, a: nat): nat
    requires Leads(s, run, t)
    decreases |run|
  {
    if run == [] then 0
    else (if Met(s, run[0]) == Some((d, a)) then 1 else 0) + MetAlong(Do(s, run[0]), run[1..], t, d, a)
  }

  function CountTold(told: seq<Told>, d: nat, a: nat): nat {
    if told == [] then 0
    else
      var last := told[|told| - 1];
      CountTold(told[..|told| - 1], d, a) + if last.dead == d && last.attempt == a then 1 else 0
  }

  function Waits(w: Waiter, d: nat, a: nat): nat {
    if !w.answered && w.dead == d && w.attempt == a then 1 else 0
  }

  /** The calls that joined the attempt and have not been told. */
  function CountWaiting(waiters: seq<Waiter>, d: nat, a: nat): nat {
    if waiters == [] then 0
    else CountWaiting(waiters[..|waiters| - 1], d, a) + Waits(waiters[|waiters| - 1], d, a)
  }

  /** The call that started the attempt, unless it was told. */
  function CountOwn(attempts: seq<Attempt>, d: nat, a: nat): nat {
    if a < |attempts| && attempts[a].byCall && !attempts[a].resumed && attempts[a].dead == d then 1 else 0
  }

  lemma CountToldMore(told: seq<Told>, x: Told, d: nat, a: nat)
    ensures CountTold(told + [x], d, a) == CountTold(told, d, a) + if x.dead == d && x.attempt == a then 1 else 0
  {
    assert (told + [x])[..|told|] == told;
  }

  lemma CountWaitingMore(waiters: seq<Waiter>, x: Waiter, d: nat, a: nat)
    ensures CountWaiting(waiters + [x], d, a) == CountWaiting(waiters, d, a) + Waits(x, d, a)
  {
    assert (waiters + [x])[..|waiters|] == waiters;
  }

  lemma {:induction false} CountWaitingOne(waiters: seq<Waiter>, w: nat, x: Waiter, d: nat, a: nat)
    requires w < |waiters|
    ensures CountWaiting(waiters[w := x], d, a) + Waits(waiters[w], d, a)
         == CountWaiting(waiters, d, a) + Waits(x, d, a)
    decreases |waiters|
  {
    var n := |waiters| - 1;
    if w == n {
      assert waiters[w := x][..n] == waiters[..n];
    } else {
      assert waiters[w := x][..n] == waiters[..n][w := x];
      CountWaitingOne(waiters[..n], w, x, d, a);
    }
  }

  /** Calls told, and calls still to be told. */
  function Accounted(s: App, d: nat, a: nat): nat {
    CountTold(s.told, d, a) + CountWaiting(s.waiters, d, a) + CountOwn(s.attempts, d, a)
  }

  lemma LossAccounts(s: App, dead: nat, may: bool, saved: bool, d: nat, a: nat)
    ensures Accounted(Lost(s, dead, may, saved), d, a)
         == Accounted(s, d, a) + if Met(s, CallLost(dead, may, saved)) == Some((d, a)) then 1 else 0
  {
    if dead in s.replacing {
      CountWaitingMore(s.waiters, Waiter(dead, s.replacing[dead], false), d, a);
    }
  }

  lemma AnswerAccounts(s: App, step: Step, d: nat, a: nat)
    requires Enabled(s, step) && (step.Resume? || step.Answer?)
    ensures Accounted(Do(s, step), d, a) == Accounted(s, d, a)
  {
    var t := Do(s, step);
    var x := t.told[|s.told|];
    assert t.told == s.told + [x];
    CountToldMore(s.told, x, d, a);
    if step.Answer? {
      CountWaitingOne(s.waiters, step.waiter, t.waiters[step.waiter], d, a);
    }
  }

  lemma OwnStays(s: App, step: Step, d: nat, a: nat)
    requires Enabled(s, step) && !step.CallLost? && !step.Resume? && !step.Answer?
    ensures CountOwn(Do(s, step).attempts, d, a) == CountOwn(s.attempts, d, a)
  {
  }

  lemma StepAccounts(s: App, step: Step, d: nat, a: nat)
    requires Enabled(s, step)
    ensures Accounted(Do(s, step), d, a) == Accounted(s, d, a) + if Met(s, step) == Some((d, a)) then 1 else 0
  {
    if step.CallLost? {
      LossAccounts(s, step.dead, step.may, step.saved, d, a);
    } else if step.Resume? || step.Answer? {
      AnswerAccounts(s, step, d, a);
    } else {
      var t := Do(s, step);
      assert t.told == s.told && t.waiters == s.waiters;
      OwnStays(s, step, d, a);
    }
  }

  /** Over every run, each call that met a dead session which is being replaced, or is listed and may be, was told,
      or waits for the attempt it joined, or for its own. */
  lemma {:induction false} CallsAreConserved(s: App, run: seq<Step>, t: App, d: nat, a: nat)
    requires Leads(s, run, t)
    ensures Accounted(t, d, a) == Accounted(s, d, a) + MetAlong(s, run, t, d, a)
    decreases |run|
  {
    if run != [] {
      StepAccounts(s, run[0], d, a);
      CallsAreConserved(Do(s, run[0]), run[1..], t, d, a);
    }
  }

  /** No attempt is open, and no call that waits can go on. */
  ghost predicate AtRest(s: App) {
    && (forall a | 0 <= a < |s.attempts| :: s.attempts[a].settled)
    && (forall a: nat :: !Enabled(s, Resume(a))) && (forall w: nat :: !Enabled(s, Answer(w)))
  }

  lemma {:induction false} NobodyWaits(waiters: seq<Waiter>, d: nat, a: nat)
    requires forall w | 0 <= w < |waiters| :: waiters[w].answered
    ensures CountWaiting(waiters, d, a) == 0
  {
    if waiters != [] {
      NobodyWaits(waiters[..|waiters| - 1], d, a);
    }
  }

  /** At rest each of those calls has been told, exactly once, and of how its attempt ended. */
  lemma EveryCallIsTold(run: seq<Step>, t: App, d: nat, a: nat)
    requires Leads(START, run, t) && AtRest(t)
    ensures CountTold(t.told, d, a) == MetAlong(START, run, t, d, a)
    ensures forall i | 0 <= i < |t.told| && t.told[i].attempt == a ::
              a < |t.attempts| && t.told[i].to == t.attempts[a].to
  {
    RunKeepsInv(START, run, t);
    CallsAreConserved(START, run, t, d, a);
    forall w | 0 <= w < |t.waiters|
      ensures t.waiters[w].answered
    {
      assert !Enabled(t, Answer(w));
    }
    NobodyWaits(t.waiters, d, a);
    assert !Enabled(t, Resume(a));
  }

  /** An attempt that a call waits for as its own is the one that later calls join. */
  predicate OwnIsJoined(s: App) {
    forall a | 0 <= a < |s.attempts| && s.attempts[a].byCall && !s.attempts[a].resumed ::
      s.attempts[a].dead in s.replacing && s.replacing[s.attempts[a].dead] == a
  }

  lemma StepKeepsJoined(s: App, step: Step)
    requires OwnIsJoined(s) && Enabled(s, step)
    ensures OwnIsJoined(Do(s, step))
  {
    var t := Do(s, step);
    if step.CallLost? || step.Resume? {
      forall a | 0 <= a < |t.attempts| && t.attempts[a].byCall && !t.attempts[a].resumed
        ensures t.attempts[a].dead in t.replacing && t.replacing[t.attempts[a].dead] == a
      {
        assert a < |s.attempts| ==> s.attempts[a].byCall && !s.attempts[a].resumed;
      }
    }
  }

  lemma {:induction false} RunKeepsJoined(s: App, run: seq<Step>, t: App)
    requires OwnIsJoined(s) && Leads(s, run, t)
    ensures OwnIsJoined(t)
    decreases |run|
  {
    if run != [] {
      StepKeepsJoined(s, run[0]);
      RunKeepsJoined(Do(s, run[0]), run[1..], t);
    }
  }

  /** Once a call was told how its own attempt ended, the next call on the same dead session starts another if that
      one failed, and is told of the same session if it did not. */
  lemma NextCallAfter(s: App, a: nat, may: bool, saved: bool)
    requires Reachable(s) && Enabled(s, Resume(a))
    ensures var t, dead := Do(s, Resume(a)), s.attempts[a].dead;
            Met(t, CallLost(dead, may, saved)) ==
            if s.attempts[a].to.Some? then Some((dead, a))
            else if Find(t.list, dead).Some? && may then Some((dead, |t.attempts|))
            else None
  {
    var run :| Leads(START, run, s);
    RunKeepsJoined(START, run, s);
  }

  // ---------------------------------------------------------------- every attempt is made

  /** The attempts that the steps of a run call for: the timer's, and those of calls that do not join one. */
  function CalledFor(s: App, step: Step): seq<Attempt> {
    match step
    case TimerFires(dead, saved) => [Attempt(dead, false, !saved, None, false)]
    case CallLost(dead, may, saved) =>
      if dead !in s.replacing && Find(s.list, dead).Some? && may then [Attempt(dead, true, !saved, None, false)] else []
    case _ => []
  }

  function CalledForAlong(s: App, run: seq<Step>, t: App): seq<Attempt>
    requires Leads(s, run, t)
    decreases |run|
  {
    if run == [] then [] else CalledFor(s, run[0]) + CalledForAlong(Do(s, run[0]), run[1..], t)
  }

  predicate SameOrigin(a: Attempt, b: Attempt) {
    a.dead == b.dead && a.byCall == b.byCall
  }

  predicate Grown(was: seq<Attempt>, more: seq<Attempt>, now: seq<Attempt>) {
    && |now| == |was| + |more|
    && (forall k | 0 <= k < |was| :: SameOrigin(now[k], was[k]))
    && forall k | 0 <= k < |more| :: SameOrigin(now[|was| + k], more[k])
  }

  lemma StartMakes(s: App, dead: nat, byCall: bool, saved: bool)
    ensures Grown(s.attempts, [Attempt(dead, byCall, !saved, None, false)],
                  StartAttempt(s, dead, byCall, saved).attempts)
  {
  }

  lemma OthersMakeNone(s: App, step: Step)
    requires Enabled(s, step) && !step.CallLost? && !step.TimerFires?
    ensures Grown(s.attempts, [], Do(s, step).attempts)
  {
  }

  lemma StepMakesAttempts(s: App, step: Step)
    requires Enabled(s, step)
    ensures Grown(s.attempts, CalledFor(s, step), Do(s, step).attempts)
  {
    match step
    case CallLost(dead, may, saved) => StartMakes(s, dead, true, saved);
    case TimerFires(dead, saved) => StartMakes(s, dead, false, saved);
    case _ => OthersMakeNone(s, step);
  }

  lemma GrownOn(was: seq<Attempt>, first: seq<Attempt>, mid: seq<Attempt>, more: seq<Attempt>, now: seq<Attempt>)
    requires Grown(was, first, mid) && Grown(mid, more, now)
    ensures Grown(was, first + more, now)
  {
    forall k | 0 <= k < |first + more|
      ensures SameOrigin(now[|was| + k], (first + more)[k])
    {
      if k < |first| {
        assert SameOrigin(now[|was| + k], mid[|was| + k]) && SameOrigin(mid[|was| + k], first[k]);
      } else {
        assert SameOrigin(now[|mid| + (k - |first|)], more[k - |first|]);
      }
    }
  }

  /** Over every run the attempts are those called for, in that order, each on its session. */
  lemma {:induction false} AttemptsAreMade(s: App, run: seq<Step>, t: App)
    requires Leads(s, run, t)
    ensures Grown(s.attempts, CalledForAlong(s, run, t), t.attempts)
    decreases |run|
  {
    if run != [] {
      StepMakesAttempts(s, run[0]);
      AttemptsAreMade(Do(s, run[0]), run[1..], t);
      GrownOn(s.attempts, CalledFor(s, run[0]), Do(s, run[0]).attempts,
              CalledForAlong(Do(s, run[0]), run[1..], t), t.attempts);
    }
  }

  /** What the band shows of a listed session that a call found dead: that it is being reconnected, or that it is lost,
      for good if it may not be or has no saved connection; the timer stays away either way. */
  lemma LossIsShown(s: App, dead: nat, may: bool, saved: bool)
    requires Reachable(s) && dead !in s.replacing && Listed(s, dead)
    ensures var t, k := Do(s, CallLost(dead, may, saved)), Find(s.list, dead);
            && k.Some? && k.value < |t.list| && !Enabled(t, TimerFires(dead, saved))
            && if may && saved then t.list[k.value] == s.list[k.value].(reconnecting := true)
               else t.list[k.value] == s.list[k.value].(lost := true, reconnecting := false, retry := false)
  {
    ReachableIsSound(s);
    var t, k := Do(s, CallLost(dead, may, saved)), Find(s.list, dead);
    StepKeepsInv(s, CallLost(dead, may, saved));
    assert t.list[k.value].connId == dead && Find(t.list, dead).Some? && Find(t.list, dead).value == k.value;
  }

  /** An attempt that fails leaves its session, if listed, due: the timer will try again. */
  lemma FailedIsRetried(s: App, a: nat, saved: bool)
    requires Reachable(s) && Enabled(s, OpenFails(a)) && Listed(s, s.attempts[a].dead)
    ensures Enabled(Do(s, OpenFails(a)), TimerFires(s.attempts[a].dead, saved))
  {
    var dead, t := s.attempts[a].dead, Do(s, OpenFails(a));
    ReachableIsSound(s);
    var k :| 0 <= k < |s.list| && s.list[k].connId == dead;
    assert t.list[k].connId == dead && t.list[k].lost && !t.list[k].reconnecting && t.list[k].retry;
    StepKeepsInv(s, OpenFails(a));
    var j := Find(t.list, dead);
    assert j.Some? && j.value == k;
  }

  // ---------------------------------------------------------------- which sessions are lost

  /** A session that was opened, is not on the list, and whose close nobody asked for. */
  ghost predicate Gone(s: App, id: nat) {
    id < s.next && !Listed(s, id) && id !in s.closed
  }

  /** The defId under which `step` takes entries off the list. */
  function Removes(s: App, step: Step): Option<string>
    requires Enabled(s, step)
  {
    match step
    case Disconnected(k) => Some(s.leaving[k].defId)
    case ConnectClosed => Some(s.connecting.defId)
    case _ => None
  }

  ghost predicate HoldsFor(list: seq<Conn>, defId: string, id: nat) {
    exists j :: 0 <= j < |list| && list[j].defId == defId && list[j].connId == id
  }

  /** `step` removes an entry that holds `id`, whose close was not asked for. */
  ghost predicate Loses(s: App, step: Step, id: nat)
    requires Enabled(s, step)
  {
    Removes(s, step).Some? && id !in s.closed && HoldsFor(s.list, Removes(s, step).value, id)
  }

  lemma SameEntriesHold(list: seq<Conn>, other: seq<Conn>, id: nat)
    requires SameEntries(list, other)
    ensures Holds(other, id) <==> Holds(list, id)
  {
    if k :| 0 <= k < |list| && list[k].connId == id {
      assert other[k].connId == id;
    }
  }

  predicate Replaces(step: Step) {
    step.OpenSucceeds? || step.ConnectOpened?
  }

  /** The steps that neither add nor remove an entry leave the ids of every one, and ask at most for the close of
      a listed session. */
  lemma EntriesStay(s: App, step: Step)
    requires Enabled(s, step) && Removes(s, step).None? && !Replaces(step)
    ensures var t := Do(s, step);
            SameEntries(s.list, t.list) && s.closed <= t.closed && t.next == s.next
    ensures forall id <- Do(s, step).closed :: id in s.closed || Holds(s.list, id)
  {
    match step
    case CallLost(dead, may, saved) => LossStays(s, dead, may, saved);
    case TimerFires(dead, saved) => StartStays(s, dead, false, saved);
    case _ =>
  }

  lemma InstallHolds(list: seq<Conn>, dead: nat, session: nat, k: nat, id: nat)
    requires k < |list| && list[k].connId == dead
    ensures Holds(Install(list, dead, session), id) <==> id == session || (id != dead && Holds(list, id))
  {
    var after := Install(list, dead, session);
    assert after[k].connId == session;
    if j :| 0 <= j < |list| && list[j].connId == id && id != dead {
      assert after[j].connId == id;
    }
    if j :| 0 <= j < |after| && after[j].connId == id && id != session {
      assert list[j].connId == id;
    }
  }

  lemma OpenedLosesNothing(s: App, a: nat, id: nat)
    requires a < |s.attempts|
    ensures Gone(Opened(s, a), id) <==> Gone(s, id)
  {
    var dead := s.attempts[a].dead;
    var k := Find(s.list, dead);
    if k.Some? {
      InstallHolds(s.list, dead, s.next, k.value, id);
    }
  }

  lemma AppendedHolds(list: seq<Conn>, c: Conn, id: nat)
    ensures Holds(list + [c], id) <==> id == c.connId || Holds(list, id)
  {
    var longer := list + [c];
    assert longer[|list|] == c;
    if j :| 0 <= j < |list| && list[j].connId == id {
      assert longer[j].connId == id;
    }
  }

  lemma OtherStepsLoseNothing(s: App, step: Step, id: nat)
    requires Enabled(s, step) && Removes(s, step).None?
    ensures Gone(Do(s, step), id) <==> Gone(s, id)
  {
    if step.OpenSucceeds? {
      OpenedLosesNothing(s, step.attempt, id);
    } else if step.ConnectOpened? {
      AppendedHolds(s.list, Conn(s.connecting.defId, s.next, false, false, false), id);
    } else {
      EntriesStay(s, step);
      SameEntriesHold(s.list, Do(s, step).list, id);
    }
  }

  lemma RemovalHolds(list: seq<Conn>, defId: string, id: nat)
    requires Unique(list)
    ensures Holds(Without(list, defId), id) <==> Holds(list, id) && !HoldsFor(list, defId, id)
  {
    if Holds(Without(list, defId), id) {
      var j := WithoutHeld(list, defId, id);
      assert list[j].connId == id;
    }
    if j :| 0 <= j < |list| && list[j].connId == id && list[j].defId != defId {
      WithoutHolds(list, defId, j);
    }
  }

  lemma RemovalLoses(s: App, step: Step, id: nat)
    requires ListSound(s) && Enabled(s, step) && Removes(s, step).Some?
    ensures Gone(Do(s, step), id) <==> Gone(s, id) || Loses(s, step, id)
  {
    var t, defId := Do(s, step), Removes(s, step).value;
    assert t.list == Without(s.list, defId) && t.next == s.next && t.closed == s.closed;
    RemovalHolds(s.list, defId, id);
  }

  /** One step exactly: what was gone stays gone, and only the removals by defId lose a session, each the one
      its entry holds if nobody asked for its close. */
  lemma GoneStep(s: App, step: Step, id: nat)
    requires ListSound(s) && Enabled(s, step)
    ensures Gone(Do(s, step), id) <==> Gone(s, id) || Loses(s, step, id)
  {
    if Removes(s, step).Some? {
      RemovalLoses(s, step, id);
    } else {
      OtherStepsLoseNothing(s, step, id);
    }
  }

  /** Some step of the run loses `id`. */
  ghost predicate LosesAlong(s: App, run: seq<Step>, t: App, id: nat)
    requires Leads(s, run, t)
    decreases |run|
  {
    run != [] && (Loses(s, run[0], id) || LosesAlong(Do(s, run[0]), run[1..], t, id))
  }

  lemma {:induction false} GoneAlong(s: App, run: seq<Step>, t: App, id: nat)
    requires Inv(s) && Leads(s, run, t)
    ensures Gone(t, id) <==> Gone(s, id) || LosesAlong(s, run, t, id)
    decreases |run|
  {
    if run != [] {
      StepKeepsInv(s, run[0]);
      GoneStep(s, run[0], id);
      GoneAlong(Do(s, run[0]), run[1..], t, id);
    }
  }

  /** Over every run: each session ever opened is listed, or its close was asked for, exactly when no removal
      of the run lost it. */
  lemma EverySessionAccounted(run: seq<Step>, t: App, id: nat)
    requires Leads(START, run, t) && id < t.next
    ensures Listed(t, id) || id in t.closed <==> !LosesAlong(START, run, t, id)
  {
    GoneAlong(START, run, t, id);
  }

  // ---------------------------------------------------------------- what the user asks for

  /** A disconnect asks for the close of the session that is listed, and takes the entries of that saved connection
      off the list, and no others, once its close is done. */
  lemma DisconnectRemoves(s: App, defId: string)
    requires Reachable(s) && FindDef(s.list, defId).Some?
    ensures var t, k := Do(s, Disconnect(defId)), |s.leaving|;
            && s.list[FindDef(s.list, defId).value].connId in t.closed && t.list == s.list
            && Enabled(t, Disconnected(k)) && t.leaving[k].defId == defId
  {
  }

  lemma RemovalIsExact(s: App, step: Step, c: Conn)
    requires Enabled(s, step) && Removes(s, step).Some?
    ensures c in Do(s, step).list <==> c in s.list && c.defId != Removes(s, step).value
  {
    WithoutMembers(s.list, Removes(s, step).value);
  }

  /** A connect opens a session and lists it; for a connection that is listed only by force, which asks for the close
      of the one there and takes it off the list first. */
  lemma ConnectInstalls(s: App, defId: string, force: bool)
    requires Reachable(s) && s.connecting == Idle
    ensures var k, s1 := FindDef(s.list, defId), Do(s, Connect(defId, force));
            if k.Some? && !force then s1 == s
            else
              && (k.Some? ==> s.list[k.value].connId in s1.closed && Enabled(s1, ConnectClosed))
              && var s2 := if k.Some? then Do(s1, ConnectClosed) else s1;
                 && Enabled(s2, ConnectOpened)
                 && Do(s2, ConnectOpened).list
                    == (if k.Some? then Without(s.list, defId) else s.list) + [Conn(defId, s.next, false, false, false)]
                 && Do(s2, ConnectFailed).list == s2.list
  {
  }

  /** A connect that is not ignored. */
  predicate Begins(s: App, step: Step) {
    step.Connect? && s.connecting == Idle && (step.force || FindDef(s.list, step.defId).None?)
  }

  function Begun(s: App, run: seq<Step>, t: App): nat
    requires Leads(s, run, t)
    decreases |run|
  {
    if run == [] then 0 else (if Begins(s, run[0]) then 1 else 0) + Begun(Do(s, run[0]), run[1..], t)
  }

  function Ended(run: seq<Step>): nat {
    if run == [] then 0 else (if run[0].ConnectOpened? || run[0].ConnectFailed? then 1 else 0) + Ended(run[1..])
  }

  function UnderWay(s: App): nat {
    if s.connecting == Idle then 0 else 1
  }

  lemma StepConnects(s: App, step: Step)
    requires Enabled(s, step)
    ensures UnderWay(s) + (if Begins(s, step) then 1 else 0)
         == UnderWay(Do(s, step)) + if step.ConnectOpened? || step.ConnectFailed? then 1 else 0
  {
  }

  /** Over every run each connect that is not ignored ends by an open that succeeds or fails, or is still under way. */
  lemma {:induction false} ConnectsEnd(s: App, run: seq<Step>, t: App)
    requires Leads(s, run, t)
    ensures UnderWay(s) + Begun(s, run, t) == UnderWay(t) + Ended(run)
    decreases |run|
  {
    if run != [] {
      StepConnects(s, run[0]);
      ConnectsEnd(Do(s, run[0]), run[1..], t);
    }
  }

  // ---------------------------------------------------------------- when none is

  /** A removal under way, of entries of this defId. */
  ghost predicate RemovalPending(s: App, defId: string) {
    || (s.connecting.Closing? && s.connecting.defId == defId)
    || exists k :: 0 <= k < |s.leaving| && !s.leaving[k].done && s.leaving[k].defId == defId
  }

  /** Whatever a removal under way would take off the list was asked to close. */
  ghost predicate Quiet(s: App) {
    forall j | 0 <= j < |s.list| && RemovalPending(s, s.list[j].defId) :: s.list[j].connId in s.closed
  }

  /** The steps that put a session on the list wait while a removal of that saved connection is under way. */
  ghost predicate Guarded(s: App, step: Step) {
    match step
    case OpenSucceeds(a) =>
      a < |s.attempts| &&
        var k := Find(s.list, s.attempts[a].dead); k.Some? ==> !RemovalPending(s, s.list[k.value].defId)
    case ConnectOpened => s.connecting.Fresh? && !RemovalPending(s, s.connecting.defId)
    case _ => true
  }

  /** In a quiet state no removal loses anything, and in any other one some removal under way does. */
  lemma QuietIff(s: App)
    requires ListSound(s)
    ensures Quiet(s) <==> forall step: Step, id: nat :: Enabled(s, step) ==> !Loses(s, step, id)
  {
    if Quiet(s) {
      forall step: Step | Enabled(s, step) && Removes(s, step).Some?
        ensures RemovalPending(s, Removes(s, step).value)
      {
      }
    } else {
      var j :| 0 <= j < |s.list| && RemovalPending(s, s.list[j].defId) && s.list[j].connId !in s.closed;
      var defId := s.list[j].defId;
      if s.connecting.Closing? && s.connecting.defId == defId {
        assert HoldsFor(s.list, defId, s.list[j].connId);
        assert Enabled(s, ConnectClosed) && Loses(s, ConnectClosed, s.list[j].connId);
      } else {
        var k: nat :| k < |s.leaving| && !s.leaving[k].done && s.leaving[k].defId == defId;
        assert HoldsFor(s.list, defId, s.list[j].connId);
        assert Enabled(s, Disconnected(k)) && Loses(s, Disconnected(k), s.list[j].connId);
      }
    }
  }

  /** A removal is under way afterwards only if it was before, or this step asked for the close of the entry. */
  lemma PendingStays(s: App, step: Step, defId: string)
    requires ListSound(s) && Enabled(s, step) && RemovalPending(Do(s, step), defId)
    ensures RemovalPending(s, defId) || step == Disconnect(defId) || step == Connect(defId, true)
    ensures !RemovalPending(s, defId) ==>
              FindDef(s.list, defId).Some? && s.list[FindDef(s.list, defId).value].connId in Do(s, step).closed
  {
    var t := Do(s, step);
    if k :| 0 <= k < |t.leaving| && !t.leaving[k].done && t.leaving[k].defId == defId {
      assert k < |s.leaving| ==> s.leaving[k].defId == defId && !s.leaving[k].done;
    }
  }

  lemma QuietRemoval(s: App, step: Step)
    requires Inv(s) && Quiet(s) && Enabled(s, step) && Removes(s, step).Some?
    ensures Quiet(Do(s, step))
  {
    var t := Do(s, step);
    WithoutMembers(s.list, Removes(s, step).value);
    forall j | 0 <= j < |t.list| && RemovalPending(t, t.list[j].defId)
      ensures t.list[j].connId in t.closed
    {
      assert t.list[j] in t.list;
      PendingStays(s, step, t.list[j].defId);
    }
  }

  lemma QuietStep(s: App, step: Step)
    requires Inv(s) && Quiet(s) && Enabled(s, step) && !Replaces(step)
    ensures Quiet(Do(s, step))
  {
    if Removes(s, step).Some? {
      QuietRemoval(s, step);
    } else {
      var t := Do(s, step);
      EntriesStay(s, step);
      forall j | 0 <= j < |t.list| && RemovalPending(t, t.list[j].defId)
        ensures t.list[j].connId in t.closed
      {
        PendingStays(s, step, t.list[j].defId);
      }
    }
  }

  /** A quiet state stays quiet through a step exactly when the step is guarded. */
  lemma StaysQuietIffGuarded(s: App, step: Step)
    requires Inv(s) && Quiet(s) && Enabled(s, step)
    ensures Quiet(Do(s, step)) <==> Guarded(s, step)
  {
    var t := Do(s, step);
    if step.OpenSucceeds? {
      assert forall defId :: RemovalPending(t, defId) <==> RemovalPending(s, defId);
      var k := Find(s.list, s.attempts[step.attempt].dead);
      if k.Some? {
        assert t.list[k.value].connId == s.next && t.list[k.value].defId == s.list[k.value].defId;
      }
    } else if step.ConnectOpened? {
      assert forall defId :: RemovalPending(t, defId) <==> RemovalPending(s, defId);
      assert t.list[|s.list|].connId == s.next;
    } else {
      QuietStep(s, step);
    }
  }

  ghost predicate AllGuarded(s: App, run: seq<Step>, t: App)
    requires Leads(s, run, t)
    decreases |run|
  {
    run == [] || (Guarded(s, run[0]) && AllGuarded(Do(s, run[0]), run[1..], t))
  }

  lemma {:induction false} GuardedRunsLoseNothing(s: App, run: seq<Step>, t: App, id: nat)
    requires Inv(s) && Quiet(s) && Leads(s, run, t) && AllGuarded(s, run, t)
    ensures Quiet(t) && !LosesAlong(s, run, t, id)
    decreases |run|
  {
    if run != [] {
      QuietIff(s);
      StaysQuietIffGuarded(s, run[0]);
      StepKeepsInv(s, run[0]);
      GuardedRunsLoseNothing(Do(s, run[0]), run[1..], t, id);
    }
  }

  /** If no session is put on the list while a removal of its saved connection is under way, none is ever lost. */
  lemma NoSessionLost(run: seq<Step>, t: App, id: nat)
    requires Leads(START, run, t) && AllGuarded(START, run, t) && id < t.next
    ensures Listed(t, id) || id in t.closed
  {
    GuardedRunsLoseNothing(START, run, t, id);
    EverySessionAccounted(run, t, id);
  }

  /** ... and the first time one is, a removal under way can lose it. */
  lemma UnguardedCanLose(run: seq<Step>, t: App, step: Step) returns (removal: Step, id: nat)
    requires Leads(START, run, t) && AllGuarded(START, run, t) && Enabled(t, step) && !Guarded(t, step)
    ensures Enabled(Do(t, step), removal) && !Gone(Do(t, step), id) && Gone(Do(Do(t, step), removal), id)
  {
    RunKeepsInv(START, run, t);
    GuardedRunsLoseNothing(START, run, t, 0);
    StaysQuietIffGuarded(t, step);
    StepKeepsInv(t, step);
    var u := Do(t, step);
    QuietIff(u);
    removal, id :| Enabled(u, removal) && Loses(u, removal, id);
    GoneStep(u, removal, id);
  }

  predicate OnlyNewListed(list: seq<Conn>, closed: set<nat>, defId: string, n: nat) {
    forall j | 0 <= j < |list| && list[j].defId == defId :: list[j].connId in closed || n <= list[j].connId
  }

  /** Every entry of this defId was asked to close, or holds a session opened after the first n. */
  predicate OnlyNew(s: App, defId: string, n: nat) {
    n <= s.next && OnlyNewListed(s.list, s.closed, defId, n)
  }

  lemma RemovalKeepsNew(list: seq<Conn>, closed: set<nat>, removed: string, defId: string, n: nat)
    requires OnlyNewListed(list, closed, defId, n)
    ensures OnlyNewListed(Without(list, removed), closed, defId, n)
  {
    var rest := Without(list, removed);
    WithoutMembers(list, removed);
    forall j | 0 <= j < |rest|
      ensures rest[j] in list
    {
      assert rest[j] in rest;
    }
  }

  lemma StepKeepsNew(s: App, step: Step, defId: string, n: nat)
    requires Enabled(s, step) && OnlyNew(s, defId, n)
    ensures OnlyNew(Do(s, step), defId, n)
  {
    if Removes(s, step).Some? {
      RemovalKeepsNew(s.list, s.closed, Removes(s, step).value, defId, n);
    } else if !Replaces(step) {
      EntriesStay(s, step);
    }
  }

  lemma {:induction false} RunKeepsNew(s: App, run: seq<Step>, t: App, defId: string, n: nat)
    requires Leads(s, run, t) && OnlyNew(s, defId, n)
    ensures OnlyNew(t, defId, n)
    decreases |run|
  {
    if run != [] {
      StepKeepsNew(s, run[0], defId, n);
      RunKeepsNew(Do(s, run[0]), run[1..], t, defId, n);
    }
  }

  /** `disconnect`, or a forced `onConnect` with nothing else under way. */
  predicate Starts(s: App, start: Step) {
    start.Disconnect? || (start.Connect? && start.force && s.connecting == Idle)
  }

  lemma StartIsNew(s: App, start: Step)
    requires ListSound(s) && Starts(s, start)
    ensures OnlyNew(Do(s, start), start.defId, s.next)
  {
    var k, t := FindDef(s.list, start.defId), Do(s, start);
    assert t.list == s.list && t.next == s.next;
    assert k.Some? ==> s.list[k.value].connId in t.closed;
    forall j | 0 <= j < |s.list| && s.list[j].defId == start.defId
      ensures s.list[j].connId in t.closed
    {
      assert k.Some? && j == k.value;
    }
  }

  lemma LostIsNew(t: App, removal: Step, id: nat, n: nat)
    requires ListSound(t) && Enabled(t, removal) && Loses(t, removal, id)
    requires OnlyNew(t, Removes(t, removal).value, n)
    ensures n <= id < t.next
  {
  }

  /** Whoever disconnects, or reconnects by force, loses at most a session opened after they began: with none
      opened between the two halves, nothing is lost. */
  lemma OnlyLaterSessionsAreLost(s: App, start: Step, run: seq<Step>, t: App, removal: Step, id: nat)
    requires Reachable(s) && Starts(s, start) && Leads(Do(s, start), run, t)
    requires Enabled(t, removal) && Removes(t, removal) == Some(start.defId) && Loses(t, removal, id)
    ensures s.next <= id < t.next
  {
    ReachableIsSound(s);
    StepKeepsInv(s, start);
    RunKeepsInv(Do(s, start), run, t);
    StartIsNew(s, start);
    RunKeepsNew(Do(s, start), run, t, start.defId, s.next);
    LostIsNew(t, removal, id, s.next);
  }

  lemma {:induction false} LeadsOn(s: App, run: seq<Step>, t: App, step: Step)
    requires Leads(s, run, t) && Enabled(t, step)
    ensures Leads(s, run + [step], Do(t, step))
    decreases |run|
  {
    if run == [] {
      assert [step][1..] == [];
      assert Leads(Do(s, step), [], Do(t, step));
      assert run + [step] == [step];
    } else {
      LeadsOn(Do(s, run[0]), run[1..], t, step);
      assert (run + [step])[1..] == run[1..] + [step];
    }
  }

  lemma OneStepOn(s: App, step: Step)
    requires Reachable(s) && Enabled(s, step)
    ensures Reachable(Do(s, step))
  {
    var run :| Leads(START, run, s);
    LeadsOn(START, run, s, step);
  }

  lemma Reaches(s: App, step: Step, t: App)
    requires Reachable(s) && Enabled(s, step) && Do(s, step) == t
    ensures Reachable(t)
  {
    OneStepOn(s, step);
  }

  lemma OneEntry(c: Conn, id: nat, lost: bool, reconnecting: bool, retry: bool, session: nat)
    ensures Find([c], id) == if c.connId == id then Some(0) else None
    ensures Mark([c], id, lost, reconnecting, retry)
         == [if c.connId == id then c.(lost := lost, reconnecting := reconnecting, retry := retry) else c]
    ensures SetReconnecting([c], id) == [if c.connId == id then c.(reconnecting := true) else c]
    ensures Install([c], id, session) == [if c.connId == id then Conn(c.defId, session, false, false, false) else c]
  {
    assert [c][1..] == [];
  }

  /** One connection, whose session a call found dead: its replacement is being opened. */
  lemma ReplacementUnderWay(defId: string) returns (s: App)
    ensures Reachable(s)
    ensures s == App([Conn(defId, 0, false, true, false)], map[0 := 0], [Attempt(0, true, false, None, false)], [],
                     Idle, [], 1, {}, map[], [])
  {
    assert Leads(START, [], START);
    var live, found := Conn(defId, 0, false, false, false), Attempt(0, true, false, None, false);
    var s1 := App([], map[], [], [], Fresh(defId), [], 0, {}, map[], []);
    Reaches(START, Connect(defId, false), s1);
    var s2 := App([live], map[], [], [], Idle, [], 1, {}, map[], []);
    Reaches(s1, ConnectOpened, s2);
    OneEntry(live, 0, true, false, false, 1);
    s := App([live.(reconnecting := true)], map[0 := 0], [found], [], Idle, [], 1, {}, map[], []);
    Reaches(s2, CallLost(0, true, true), s);
  }

  /** It does happen: a disconnect whose close is pending while a replacement is installed drops the fresh
      session without closing it. */
  lemma DisconnectCanLeak(defId: string)
    ensures exists s :: Reachable(s) && Gone(s, 1)
  {
    var s3 := ReplacementUnderWay(defId);
    OneEntry(s3.list[0], 0, true, false, false, 1);
    assert FindDef(s3.list, defId) == Some(0);
    var s4 := s3.(closed := {0}, leaving := [Leaving(defId, 0, false)]);
    Reaches(s3, Disconnect(defId), s4);
    var s5 := s4.(next := 2, list := [Conn(defId, 1, false, false, false)], installed := map[0 := 1],
                  attempts := [Attempt(0, true, true, Some(1), false)]);
    Reaches(s4, OpenSucceeds(0), s5);
    assert HoldsFor(s5.list, defId, 1) by {
      assert s5.list[0].connId == 1;
    }
    ReachableIsSound(s5);
    GoneStep(s5, Disconnected(0), 1);
    OneStepOn(s5, Disconnected(0));
  }

  /** The timer's attempt and a call's own, both under way for the same dead session. */
  lemma TimerAndCall(defId: string) returns (s: App)
    ensures Reachable(s)
    ensures s == App([Conn(defId, 0, true, true, true)], map[0 := 2],
                     [Attempt(0, true, true, None, true), Attempt(0, false, false, None, false),
                      Attempt(0, true, false, None, false)],
                     [], Idle, [], 1, {}, map[], [Told(0, 0, None)])
  {
    var s1 := ReplacementUnderWay(defId);
    var due, given := Conn(defId, 0, true, false, true), Attempt(0, true, true, None, true);
    OneEntry(s1.list[0], 0, true, false, true, 1);
    var s2 := s1.(list := [due], attempts := [Attempt(0, true, true, None, false)]);
    Reaches(s1, OpenFails(0), s2);
    var s3 := s2.(replacing := map[], attempts := [given], told := [Told(0, 0, None)]);
    Reaches(s2, Resume(0), s3);
    OneEntry(due, 0, true, false, true, 1);
    var s4 := s3.(list := [due.(reconnecting := true)], attempts := [given, Attempt(0, false, false, None, false)]);
    Reaches(s3, TimerFires(0, true), s4);
    OneEntry(due.(reconnecting := true), 0, true, false, true, 1);
    s := s4.(replacing := map[0 := 2],
             attempts := [given, Attempt(0, false, false, None, false), Attempt(0, true, false, None, false)]);
    Reaches(s4, CallLost(0, true, true), s);
  }

  /** The attempt of the retry timer is not one that calls join.  A first call's attempt fails, the timer starts
      another, and the call that comes next starts its own: the timer's session opens first and is installed, so
      the call's own, once opened, is closed, and the call is told there is no session though one is there. */
  lemma ReplacedYetToldNone(defId: string)
    ensures exists s :: Reachable(s) && s.list == [Conn(defId, 1, false, false, false)]
                        && s.installed == map[0 := 1] && s.closed == {0, 2} && Told(0, 2, None) in s.told
  {
    var s5 := TimerAndCall(defId);
    OneEntry(s5.list[0], 0, true, false, false, 1);
    var fresh1, given := Conn(defId, 1, false, false, false), Attempt(0, true, true, None, true);
    var s6 := s5.(list := [fresh1], next := 2, closed := {0}, installed := map[0 := 1],
                  attempts := [given, Attempt(0, false, true, Some(1), false), Attempt(0, true, false, None, false)]);
    Reaches(s5, OpenSucceeds(1), s6);
    OneEntry(fresh1, 0, true, false, false, 2);
    var s7 := s6.(next := 3, closed := {0, 2},
                  attempts := [given, s6.attempts[1], Attempt(0, true, true, None, false)]);
    Reaches(s6, OpenSucceeds(2), s7);
    var s8 := s7.(replacing := map[], attempts := [given, s6.attempts[1], given],
                  told := [Told(0, 0, None), Told(0, 2, None)]);
    Reaches(s7, Resume(2), s8);
    assert s8.told[1] == Told(0, 2, None);
  }

  // ---------------------------------------------------------------- the code, one method per stretch between awaits

  /** The signals and maps of the App component, the promises of its async functions, and the sessions. */
  class Component {
    var openConns: seq<Conn>
    var replacing: map<nat, nat>
    var attempts: seq<Attempt>
    var waiters: seq<Waiter>
    var connecting: Connecting
    var leaving: seq<Leaving>
    var next: nat
    ghost var closed: set<nat>
    ghost var installed: map<nat, nat>
    ghost var told: seq<Told>

    ghost function View(): App
      reads this
    {
      App(openConns, replacing, attempts, waiters, connecting, leaving, next, closed, installed, told)
    }

    constructor ()
      ensures View() == START
    {
      openConns, replacing, attempts, waiters, connecting, leaving, next := [], map[], [], [], Idle, [], 0;
      closed, installed, told := {}, map[], [];
    }

    /** `markLost`. */
    method MarkLost(id: nat, retry: bool)
      modifies this`openConns
      ensures openConns == Mark(old(openConns), id, true, false, retry)
    {
      var k := Find(openConns, id);
      if k.None? {
        assert Mark(openConns, id, true, false, retry) == openConns;
        return;
      }
      openConns := Mark(openConns, id, true, false, retry);
    }

    /** `replaceSession`, up to its await of the new session. */
    method ReplaceSession(dead: nat, byCall: bool, saved: bool) returns (attempt: nat)
      modifies this`openConns, this`attempts
      ensures attempt == |old(attempts)| && View() == StartAttempt(old(View()), dead, byCall, saved)
    {
      attempt := |attempts|;
      if !saved {
        MarkLost(dead, false);
        attempts := attempts + [Attempt(dead, byCall, true, None, false)];
        return;
      }
      openConns := SetReconnecting(openConns, dead);
      attempts := attempts + [Attempt(dead, byCall, false, None, false)];
    }

    /** The listener of `onConnectionLost`, up to its await; `may` is `mayReconnect`'s verdict. */
    method OnConnectionLost(dead: nat, may: bool, saved: bool)
      modifies this
      ensures View() == Do(old(View()), CallLost(dead, may, saved))
    {
      if dead in replacing {
        waiters := waiters + [Waiter(dead, replacing[dead], false)];
        return;
      }
      var k := Find(openConns, dead);
      if k.None? {
        return;
      }
      if !may {
        MarkLost(dead, false);
        return;
      }
      var attempt := ReplaceSession(dead, true, saved);
      replacing := replacing[dead := attempt];
    }

    /** The retry timer finding a lost session that is due. */
    method RetryDue(dead: nat, saved: bool)
      requires Enabled(View(), TimerFires(dead, saved))
      modifies this
      ensures View() == Do(old(View()), TimerFires(dead, saved))
    {
      var _ := ReplaceSession(dead, false, saved);
    }

    /** `replaceSession` after its await: the new session came. */
    method SessionOpened(a: nat)
      requires Enabled(View(), OpenSucceeds(a))
      modifies this
      ensures View() == Do(old(View()), OpenSucceeds(a))
    {
      var dead, id := attempts[a].dead, next;
      next := next + 1;
      var k := Find(openConns, dead);
      if k.None? {
        closed := closed + {id};
        attempts := attempts[a := attempts[a].(settled := true)];
        return;
      }
      openConns := Install(openConns, dead, id);
      closed := closed + {dead};
      installed := installed[dead := id];
      attempts := attempts[a := attempts[a].(settled := true, to := Some(id))];
    }

    /** `replaceSession` after its await: opening failed. */
    method SessionFailed(a: nat)
      requires Enabled(View(), OpenFails(a))
      modifies this
      ensures View() == Do(old(View()), OpenFails(a))
    {
      MarkLost(attempts[a].dead, true);
      attempts := attempts[a := attempts[a].(settled := true)];
    }

    /** The listener after its own attempt settled: a failed one is forgotten. */
    method ListenerResumes(a: nat)
      requires Enabled(View(), Resume(a))
      modifies this
      ensures View() == Do(old(View()), Resume(a))
    {
      var at := attempts[a];
      if at.to.None? {
        replacing := replacing - {at.dead};
      }
      attempts := attempts[a := at.(resumed := true)];
      told := told + [Told(at.dead, a, at.to)];
    }

    /** The listener after the attempt it joined settled. */
    method WaiterResumes(w: nat)
      requires Enabled(View(), Answer(w))
      modifies this
      ensures View() == Do(old(View()), Answer(w))
    {
      var wt := waiters[w];
      waiters := waiters[w := wt.(answered := true)];
      told := told + [Told(wt.dead, wt.attempt, attempts[wt.attempt].to)];
    }

    /** `disconnect`, up to its await of the close, and after it. */
    method DisconnectStarts(defId: string)
      modifies this
      ensures View() == Do(old(View()), Disconnect(defId))
    {
      var k := FindDef(openConns, defId);
      if k.None? {
        return;
      }
      var id := openConns[k.value].connId;
      closed := closed + {id};
      leaving := leaving + [Leaving(defId, id, false)];
    }

    method DisconnectEnds(k: nat)
      requires Enabled(View(), Disconnected(k))
      modifies this
      ensures View() == Do(old(View()), Disconnected(k))
    {
      var l := leaving[k];
      openConns := Without(openConns, l.defId);
      leaving := leaving[k := l.(done := true)];
    }

    /** `onConnect`, up to its first await. */
    method OnConnect(defId: string, force: bool)
      modifies this
      ensures View() == Do(old(View()), Connect(defId, force))
    {
      if connecting != Idle {
        return;
      }
      var k := FindDef(openConns, defId);
      if k.Some? && !force {
        return;
      }
      if k.Some? {
        var id := openConns[k.value].connId;
        closed := closed + {id};
        connecting := Closing(defId, id);
      } else {
        connecting := Fresh(defId);
      }
    }

    /** `onConnect` after the stale session was closed. */
    method StaleClosed()
      requires connecting.Closing?
      modifies this
      ensures View() == Do(old(View()), ConnectClosed)
    {
      openConns := Without(openConns, connecting.defId);
      connecting := Fresh(connecting.defId);
    }

    /** `onConnect` after `openSession`. */
    method FreshOpened(ok: bool)
      requires connecting.Fresh?
      modifies this
      ensures View() == Do(old(View()), if ok then ConnectOpened else ConnectFailed)
    {
      if ok {
        openConns := openConns + [Conn(connecting.defId, next, false, false, false)];
        next := next + 1;
      }
      connecting := Idle;
    }

    method Perform(step: Step)
      requires Enabled(View(), step)
      modifies this
      ensures View() == Do(old(View()), step)
    {
      match step {
        case CallLost(dead, may, saved) => OnConnectionLost(dead, may, saved);
        case TimerFires(dead, saved) => RetryDue(dead, saved);
        case OpenSucceeds(a) => SessionOpened(a);
        case OpenFails(a) => SessionFailed(a);
        case Resume(a) => ListenerResumes(a);
        case Answer(w) => WaiterResumes(w);
        case Disconnect(defId) => DisconnectStarts(defId);
        case Disconnected(k) => DisconnectEnds(k);
        case Connect(defId, force) => OnConnect(defId, force);
        case ConnectClosed => StaleClosed();
        case ConnectOpened => FreshOpened(true);
        case ConnectFailed => FreshOpened(false);
      }
    }

    /** Any order in which the awaits come back: the handlers go through the states of the run. */
    method Play(run: seq<Step>, ghost t: App)
      requires Leads(View(), run, t)
      modifies this
      ensures View() == t
      ensures old(Reachable(View())) ==> Inv(View())
    {
      ghost var s := View();
      for i := 0 to |run|
        invariant Leads(View(), run[i..], t)
      {
        assert run[i..][0] == run[i] && run[i..][1..] == run[i + 1..];
        Perform(run[i]);
      }
      if Reachable(s) {
        ReachableIsSound(s);
        RunKeepsInv(s, run, t);
      }
    }
  }
}
