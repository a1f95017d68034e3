/** The thread of core/src/conn/ssh_tunnel.c: it accepts connections, pumps every forward and
    compacts the array by moving the last one into the hole, then drops what is left. */
module ForwardThread {
  import opened Prelude
  import opened SshForward

  // ---------------------------------------------------------------- the thread, by connection number

  /** The live forwards by connection number, and one log per connection ever accepted. */
  datatype Tunnel = Tunnel(live: map<nat, Forward>, logs: seq<Log>)

  datatype Listener = NoConnection | AcceptFailed | Connection(channelOpens: bool)

  /** One turn of the loop: what `select` said, who connected, and what each forward's calls answer. */
  datatype Turn = Interrupted | SelectFailed | Ready(listener: Listener, io: nat -> Answers)

  function Zeros(): Buffer {
    seq(FWD_BUF, _ => 0)
  }

  function NewForward(id: nat): Forward {
    Forward(Some(id), Some(id), Zeros(), 0, 0, Zeros(), 0, 0, false, false)
  }

  predicate WellFormed(t: Tunnel) {
    forall id <- t.live :: id < |t.logs| && Bounded(t.live[id]) && t.live[id].local == t.live[id].chan == Some(id)
  }

  function FlowOf(t: Tunnel, id: nat): Flow
    requires id in t.live && WellFormed(t)
  {
    Flow(t.live[id], t.logs[id])
  }

  function Accept(t: Tunnel, l: Listener): (r: Tunnel)
    requires WellFormed(t)
    ensures WellFormed(r)
  {
    if !l.Connection? || |t.live| >= MAX_FORWARDS then t
    else if l.channelOpens then
      Tunnel(t.live[|t.logs| := NewForward(|t.logs|)], t.logs + [[Accepted, ChannelOpened]])
    else Tunnel(t.live, t.logs + [[Accepted, SocketClosed]])
  }

  /** What one pump makes of a forward. */
  datatype Outcome = Outcome(flow: Flow, keep: bool)

  function Outcomes(t: Tunnel, io: nat -> Answers): (r: map<nat, Outcome>)
    requires WellFormed(t)
    ensures r.Keys == t.live.Keys
    ensures forall id <- r :: r[id].keep ==>
              Bounded(r[id].flow.f) && r[id].flow.f.local == r[id].flow.f.chan == Some(id)
  {
    map id | id in t.live :: Outcome(Pump(FlowOf(t, id), io(id)), Keeps(FlowOf(t, id), io(id)))
  }

  function Settle(t: Tunnel, out: map<nat, Outcome>): Tunnel {
    Tunnel(map id | id in out && out[id].keep :: out[id].flow.f,
           seq(|t.logs|, id requires 0 <= id < |t.logs| => if id in out then out[id].flow.log else t.logs[id]))
  }

  /** Every live forward is pumped once, by its own answers; those that close are gone. */
  function PumpAll(t: Tunnel, io: nat -> Answers): (r: Tunnel)
    requires WellFormed(t)
    ensures WellFormed(r)
  {
    Settle(t, Outcomes(t, io))
  }

  function Drops(t: Tunnel): (r: map<nat, Outcome>)
    requires WellFormed(t)
    ensures r.Keys == t.live.Keys && forall id <- r :: !r[id].keep
  {
    map id | id in t.live :: Outcome(Drop(FlowOf(t, id)), false)
  }

  function DropAll(t: Tunnel): Tunnel
    requires WellFormed(t)
  {
    Settle(t, Drops(t))
  }

  function AfterTurn(t: Tunnel, turn: Turn): (r: Tunnel)
    requires WellFormed(t)
    ensures WellFormed(r)
  {
    if turn.Ready? then PumpAll(Accept(t, turn.listener), turn.io) else t
  }

  /** How the turns of a schedule leave the tunnel, up to its end or to a `select` that failed. */
  function BeforeStop(t: Tunnel, schedule: seq<Turn>): (r: Tunnel)
    requires WellFormed(t)
    ensures WellFormed(r)
    decreases |schedule|
  {
    if schedule == [] || schedule[0].SelectFailed? then t else BeforeStop(AfterTurn(t, schedule[0]), schedule[1..])
  }

  /** The whole life of the thread: at the end of the schedule it is told to stop. */
  function Run(t: Tunnel, schedule: seq<Turn>): Tunnel
    requires WellFormed(t)
  {
    DropAll(BeforeStop(t, schedule))
  }

  // ---------------------------------------------------------------- what every turn keeps

  /** By the rules up to the end, when both ends were released, if the channel ever opened. */
  predicate Over(log: Log) {
    Legal(log) && Sum(log).closed
  }

  /** The log of a forward that is gone while the thread goes on: all it took in was delivered. */
  predicate Served(log: Log) {
    Over(log) && (Sum(log).chanOpen ==> Delivered(Sum(log)))
  }

  predicate Sound(t: Tunnel) {
    && WellFormed(t) && |t.live| <= MAX_FORWARDS
    && (forall id <- t.live :: Rested(FlowOf(t, id)))
    && (forall id | 0 <= id < |t.logs| && id !in t.live :: Served(t.logs[id]))
  }

  lemma FreshLogs(n: nat)
    ensures Rested(Flow(NewForward(n), [Accepted, ChannelOpened]))
    ensures Served([Accepted, SocketClosed])
  {
    Append([], Accepted);
    Append([Accepted], ChannelOpened);
    Append([Accepted], SocketClosed);
    assert [] + [Accepted] == [Accepted];
    assert [Accepted] + [ChannelOpened] == [Accepted, ChannelOpened];
    assert [Accepted] + [SocketClosed] == [Accepted, SocketClosed];
  }

  /** Whatever holds of every forward and every log still does with one more of either. */
  lemma Added(t: Tunnel, f: Forward, log: Log, live: bool, alive: Flow -> bool, over: Log -> bool)
    requires WellFormed(t) && Bounded(f) && f.local == f.chan == Some(|t.logs|)
    requires forall id <- t.live :: alive(FlowOf(t, id))
    requires forall id | 0 <= id < |t.logs| && id !in t.live :: over(t.logs[id])
    requires if live then alive(Flow(f, log)) else over(log)
    ensures var r := Tunnel(if live then t.live[|t.logs| := f] else t.live, t.logs + [log]);
            && WellFormed(r) && (forall id <- r.live :: alive(FlowOf(r, id)))
            && (forall id | 0 <= id < |r.logs| && id !in r.live :: over(r.logs[id]))
  {
    var r := Tunnel(if live then t.live[|t.logs| := f] else t.live, t.logs + [log]);
    forall id | id in r.live
      ensures alive(FlowOf(r, id))
    {
      assert FlowOf(r, id) == if id in t.live then FlowOf(t, id) else Flow(f, log);
    }
  }

  lemma LiveCount(live: map<nat, Forward>, id: nat, f: Forward)
    requires id !in live
    ensures |live[id := f]| == |live| + 1
  {
    assert live[id := f].Keys == live.Keys + {id};
  }

  lemma AcceptSound(t: Tunnel, l: Listener)
    requires Sound(t)
    ensures Sound(Accept(t, l))
  {
    if l.Connection? && |t.live| < MAX_FORWARDS {
      FreshLogs(|t.logs|);
      LiveCount(t.live, |t.logs|, NewForward(|t.logs|));
      Added(t, NewForward(|t.logs|), if l.channelOpens then [Accepted, ChannelOpened] else [Accepted, SocketClosed],
            l.channelOpens, Rested, Served);
    }
  }

  lemma SettledAt(t: Tunnel, out: map<nat, Outcome>, id: nat)
    requires out.Keys == t.live.Keys && WellFormed(t) && WellFormed(Settle(t, out)) && id < |t.logs|
    ensures var r := Settle(t, out);
            if id in out && out[id].keep then id in r.live && FlowOf(r, id) == out[id].flow
            else id !in r.live && r.logs[id] == if id in out then out[id].flow.log else t.logs[id]
  {
  }

  lemma SubsetSize<T>(a: set<T>, b: set<T>)
    requires a <= b
    ensures |a| <= |b|
  {
    assert b == a + (b - a);
  }

  /** Whatever holds of every outcome holds of what is settled from them. */
  lemma Settled(t: Tunnel, out: map<nat, Outcome>, alive: Flow -> bool, over: Log -> bool)
    requires out.Keys == t.live.Keys && WellFormed(t) && WellFormed(Settle(t, out))
    requires forall id <- out :: if out[id].keep then alive(out[id].flow) else over(out[id].flow.log)
    requires forall id | 0 <= id < |t.logs| && id !in t.live :: over(t.logs[id])
    ensures forall id <- Settle(t, out).live :: alive(FlowOf(Settle(t, out), id))
    ensures forall id | 0 <= id < |t.logs| && id !in Settle(t, out).live :: over(Settle(t, out).logs[id])
    ensures |Settle(t, out).live| <= |t.live|
  {
    var r := Settle(t, out);
    SubsetSize(r.live.Keys, t.live.Keys);
    forall id | 0 <= id < |t.logs|
      ensures if id in r.live then alive(FlowOf(r, id)) else over(r.logs[id])
    {
      SettledAt(t, out, id);
    }
  }

  lemma PumpAllSound(t: Tunnel, io: nat -> Answers)
    requires Sound(t)
    ensures Sound(PumpAll(t, io))
  {
    var out := Outcomes(t, io);
    forall id | id in out
      ensures if out[id].keep then Rested(out[id].flow) else Served(out[id].flow.log)
    {
      PumpRested(FlowOf(t, id), io(id));
    }
    Settled(t, out, Rested, Served);
  }

  /** Stopping releases the forwards that are live and leaves the other logs alone. */
  lemma DropAllSound(t: Tunnel)
    requires Sound(t)
    ensures |DropAll(t).logs| == |t.logs|
    ensures forall id | 0 <= id < |t.logs| ::
              if id in t.live then Over(DropAll(t).logs[id]) else Served(DropAll(t).logs[id])
  {
    var r := DropAll(t);
    forall id | 0 <= id < |r.logs|
      ensures if id in t.live then Over(r.logs[id]) else Served(r.logs[id])
    {
      if id in t.live {
        DropReleases(FlowOf(t, id));
        assert r.logs[id] == Drop(FlowOf(t, id)).log;
      } else {
        assert r.logs[id] == t.logs[id];
      }
    }
  }

  lemma TurnSound(t: Tunnel, turn: Turn)
    requires Sound(t)
    ensures Sound(AfterTurn(t, turn))
  {
    if turn.Ready? {
      AcceptSound(t, turn.listener);
      PumpAllSound(Accept(t, turn.listener), turn.io);
    }
  }

  /** A whole life: by the rules, faithful, and each end that existed released exactly once. */
  predicate Accounted(log: Log) {
    && Legal(log) && Faithful(Sum(log))
    && multiset(log)[SocketClosed] == 1
    && multiset(log)[ChannelFreed] == (if Sum(log).chanOpen then 1 else 0)
  }

  lemma OverIsAccounted(log: Log)
    requires Over(log)
    ensures Accounted(log)
  {
    ReleasedOnce(log);
    FlagsShow(log);
    LegalIsFaithful(log);
  }

  lemma {:induction false} TurnsSound(t: Tunnel, schedule: seq<Turn>)
    requires Sound(t)
    ensures Sound(BeforeStop(t, schedule))
    decreases |schedule|
  {
    if schedule != [] && !schedule[0].SelectFailed? {
      TurnSound(t, schedule[0]);
      TurnsSound(AfterTurn(t, schedule[0]), schedule[1..]);
    }
  }

  /** Over every schedule and every answer of the outside, each connection ever accepted ends with its socket
      closed and its channel freed exactly once, after a life that obeyed the rules; and one whose forward was gone
      when the thread was told to stop had everything delivered that either end sent. */
  lemma RunReleasesAll(t: Tunnel, schedule: seq<Turn>)
    requires Sound(t)
    ensures var stop, logs := BeforeStop(t, schedule), Run(t, schedule).logs;
            && |logs| == |stop.logs|
            && (forall log <- logs :: Accounted(log))
            && forall id | 0 <= id < |logs| && id !in stop.live :: Sum(logs[id]).chanOpen ==> Delivered(Sum(logs[id]))
  {
    var stop, logs := BeforeStop(t, schedule), Run(t, schedule).logs;
    TurnsSound(t, schedule);
    DropAllSound(stop);
    forall id | 0 <= id < |logs|
      ensures Accounted(logs[id])
    {
      OverIsAccounted(logs[id]);
    }
  }

  // ---------------------------------------------------------------- what each connection experiences

  function Freed(t: Tally): Tally {
    t.(freed := true, closed := true)
  }

  lemma RelayedFaithful(t: Tally, a: Answers)
    requires Faithful(t)
    ensures |t.toChan| <= |t.fromLocal| && |t.toLocal| <= |t.fromChan| && Faithful(Relayed(t, a))
  {
  }

  /** The life of one forward that has no buffers and is alone in the thread, by what its own calls answer. */
  function Life(t: Tally, schedule: seq<Turn>, id: nat): Tally
    requires Faithful(t)
    decreases |schedule|
  {
    if schedule == [] || schedule[0].SelectFailed? then Freed(t)
    else if schedule[0].Interrupted? then Life(t, schedule[1..], id)
    else
      var r := Relayed(t, schedule[0].io(id));
      RelayedFaithful(t, schedule[0].io(id));
      if Delivered(r) then Freed(r) else Life(r, schedule[1..], id)
  }

  lemma OpenedTally()
    ensures Sum([Accepted, ChannelOpened]) == BLANK.(accepted := true, chanOpen := true)
  {
    Append([], Accepted);
    Append([Accepted], ChannelOpened);
    assert [] + [Accepted] == [Accepted] && [Accepted] + [ChannelOpened] == [Accepted, ChannelOpened];
  }

  lemma LiveRested(t: Tunnel, id: nat)
    requires Sound(t) && id in t.live
    ensures Rested(FlowOf(t, id)) && FlowOf(t, id).log == t.logs[id] && Faithful(Sum(t.logs[id]))
  {
    LegalIsFaithful(t.logs[id]);
  }

  /** One pass pumps each live forward by the answers of its own calls and leaves the other logs alone. */
  lemma PumpAllAt(t: Tunnel, io: nat -> Answers, id: nat)
    requires WellFormed(t) && id < |t.logs|
    ensures id < |PumpAll(t, io).logs|
    ensures id !in t.live ==> id !in PumpAll(t, io).live && PumpAll(t, io).logs[id] == t.logs[id]
    ensures id in t.live ==> PumpAll(t, io).logs[id] == Pump(FlowOf(t, id), io(id)).log
    ensures id in t.live ==> (id in PumpAll(t, io).live <==> Keeps(FlowOf(t, id), io(id)))
  {
    SettledAt(t, Outcomes(t, io), id);
  }

  lemma GoneThroughAccept(t: Tunnel, l: Listener, id: nat)
    requires WellFormed(t) && id < |t.logs|
    ensures var r := Accept(t, l);
            id < |r.logs| && r.logs[id] == t.logs[id] && (id in r.live <==> id in t.live)
            && (id in t.live ==> r.live[id] == t.live[id])
  {
  }

  lemma RunStep(t: Tunnel, schedule: seq<Turn>)
    requires WellFormed(t) && schedule != [] && !schedule[0].SelectFailed?
    ensures Run(t, schedule) == Run(AfterTurn(t, schedule[0]), schedule[1..])
  {
  }

  lemma {:induction false} GoneStays(t: Tunnel, schedule: seq<Turn>, id: nat)
    requires WellFormed(t) && id < |t.logs| && id !in t.live
    ensures id < |Run(t, schedule).logs| && Run(t, schedule).logs[id] == t.logs[id]
    decreases |schedule|
  {
    if schedule == [] || schedule[0].SelectFailed? {
      SettledAt(t, Drops(t), id);
    } else {
      var turn, rest := schedule[0], schedule[1..];
      RunStep(t, schedule);
      if turn.Ready? {
        GoneThroughAccept(t, turn.listener, id);
        PumpAllAt(Accept(t, turn.listener), turn.io, id);
      }
      GoneStays(AfterTurn(t, turn), rest, id);
    }
  }

  /** One pump, and what is left of a life after it. */
  lemma FlowLives(s: Flow, schedule: seq<Turn>, id: nat)
    requires Rested(s) && schedule != [] && schedule[0].Ready? && Faithful(Sum(s.log))
    ensures var a := schedule[0].io(id);
            var r := Pump(s, a);
            && Faithful(Sum(r.log))
            && Life(Sum(s.log), schedule, id)
            == if Keeps(s, a) then Life(Sum(r.log), schedule[1..], id) else Sum(r.log)
  {
    PumpRelays(s, schedule[0].io(id));
    RelayedFaithful(Sum(s.log), schedule[0].io(id));
  }

  lemma {:induction false} ReadyTurn(t: Tunnel, schedule: seq<Turn>, id: nat)
    requires Sound(t) && schedule != [] && schedule[0].Ready? && id in t.live && Faithful(Sum(t.logs[id]))
    ensures var r := Run(PumpAll(t, schedule[0].io), schedule[1..]);
            id < |r.logs| && Sum(r.logs[id]) == Life(Sum(t.logs[id]), schedule, id)
    decreases |schedule|, 0
  {
    var r, rest := PumpAll(t, schedule[0].io), schedule[1..];
    LiveRested(t, id);
    PumpAllAt(t, schedule[0].io, id);
    FlowLives(FlowOf(t, id), schedule, id);
    if id in r.live {
      PumpAllSound(t, schedule[0].io);
      RunIsLife(r, rest, id);
    } else {
      GoneStays(r, rest, id);
    }
  }

  lemma StoppedLife(t: Tunnel, schedule: seq<Turn>, id: nat)
    requires Sound(t) && id in t.live && Faithful(Sum(t.logs[id])) && (schedule == [] || schedule[0].SelectFailed?)
    ensures id < |Run(t, schedule).logs| && Sum(Run(t, schedule).logs[id]) == Life(Sum(t.logs[id]), schedule, id)
  {
    DropReleases(FlowOf(t, id));
    SettledAt(t, Drops(t), id);
  }

  lemma {:induction false} AcceptingTurn(t: Tunnel, schedule: seq<Turn>, id: nat)
    requires Sound(t) && id in t.live && Faithful(Sum(t.logs[id])) && schedule != [] && schedule[0].Ready?
    ensures var r := Run(AfterTurn(t, schedule[0]), schedule[1..]);
            id < |r.logs| && Sum(r.logs[id]) == Life(Sum(t.logs[id]), schedule, id)
    decreases |schedule|, 1
  {
    var l := schedule[0].listener;
    assert Sound(Accept(t, l)) && id in Accept(t, l).live && Accept(t, l).logs[id] == t.logs[id] by {
      AcceptSound(t, l);
      GoneThroughAccept(t, l, id);
    }
    ReadyTurn(Accept(t, l), schedule, id);
    assert AfterTurn(t, schedule[0]) == PumpAll(Accept(t, l), schedule[0].io);
  }

  lemma {:induction false} InterruptedTurn(t: Tunnel, schedule: seq<Turn>, id: nat)
    requires Sound(t) && id in t.live && Faithful(Sum(t.logs[id])) && schedule != [] && schedule[0].Interrupted?
    ensures id < |Run(t, schedule).logs| && Sum(Run(t, schedule).logs[id]) == Life(Sum(t.logs[id]), schedule, id)
    decreases |schedule|, 1
  {
    RunStep(t, schedule);
    RunIsLife(t, schedule[1..], id);
  }

  /** Neither buffers nor neighbours show: over every schedule, what crosses the edges of a connection's forward is
      what crosses those of one without buffers that is alone. */
  lemma {:induction false} RunIsLife(t: Tunnel, schedule: seq<Turn>, id: nat)
    requires Sound(t) && id in t.live
    ensures Faithful(Sum(t.logs[id]))
    ensures id < |Run(t, schedule).logs| && Sum(Run(t, schedule).logs[id]) == Life(Sum(t.logs[id]), schedule, id)
    decreases |schedule|, 2
  {
    LiveRested(t, id);
    if schedule == [] || schedule[0].SelectFailed? {
      StoppedLife(t, schedule, id);
    } else if schedule[0].Ready? {
      AcceptingTurn(t, schedule, id);
      RunStep(t, schedule);
    } else {
      InterruptedTurn(t, schedule, id);
    }
  }

  /** A connection that comes while fewer than MAX_FORWARDS are live, and whose channel opens, has such a life, from
      the turn on in which it comes. */
  lemma AcceptedHasALife(t: Tunnel, schedule: seq<Turn>)
    requires Sound(t) && |t.live| < MAX_FORWARDS
    requires schedule != [] && schedule[0].Ready? && schedule[0].listener == Connection(true)
    ensures var id, t0 := |t.logs|, BLANK.(accepted := true, chanOpen := true);
            Faithful(t0) && id < |Run(t, schedule).logs| && Sum(Run(t, schedule).logs[id]) == Life(t0, schedule, id)
  {
    var t1 := Accept(t, schedule[0].listener);
    AcceptSound(t, schedule[0].listener);
    OpenedTally();
    assert t1.logs[|t.logs|] == [Accepted, ChannelOpened] && |t.logs| in t1.live;
    ReadyTurn(t1, schedule, |t.logs|);
    RunStep(t, schedule);
  }

  /** One whose channel does not open is closed at once. */
  lemma RefusedIsClosed(t: Tunnel, schedule: seq<Turn>)
    requires Sound(t) && |t.live| < MAX_FORWARDS
    requires schedule != [] && schedule[0].Ready? && schedule[0].listener == Connection(false)
    ensures |t.logs| < |Run(t, schedule).logs| && Run(t, schedule).logs[|t.logs|] == [Accepted, SocketClosed]
  {
    var id, t1, io := |t.logs|, Accept(t, schedule[0].listener), schedule[0].io;
    assert id !in t1.live && t1.logs[id] == [Accepted, SocketClosed];
    PumpAllAt(t1, io, id);
    GoneStays(PumpAll(t1, io), schedule[1..], id);
    RunStep(t, schedule);
  }

  // ---------------------------------------------------------------- the code: pump in place

  /** `recv` into an empty buffer. */
  method FromLocal(fs: array<Forward>, i: nat, log0: Log, got: InAnswer) returns (log: Log)
    requires i < fs.Length && Bounded(fs[i])
    modifies fs
    ensures Flow(fs[i], log) == Recv(Flow(old(fs[i]), log0), got)
    ensures fs[..] == old(fs[..])[i := fs[i]]
  {
    log := log0;
    if !fs[i].localEof && fs[i].l2cLen == 0 {
      if got.Data? && got.bytes != [] {
        var n := Min(|got.bytes|, FWD_BUF);
        fs[i] := fs[i].(l2c := got.bytes[..n] + fs[i].l2c[n..], l2cOff := 0, l2cLen := n);
        log := log + [Recvd(got.bytes[..n])];
      } else if !got.InBlocked? {
        fs[i] := fs[i].(localEof := true);
        log := log + [LocalEnded];
      }
    }
  }

  /** `libssh2_channel_read` into an empty buffer. */
  method FromChannel(fs: array<Forward>, i: nat, log0: Log, got: InAnswer) returns (log: Log)
    requires i < fs.Length && Bounded(fs[i])
    modifies fs
    ensures Flow(fs[i], log) == ReadChannel(Flow(old(fs[i]), log0), got)
    ensures fs[..] == old(fs[..])[i := fs[i]]
  {
    log := log0;
    if fs[i].c2lLen == 0 && !fs[i].chanEof {
      if got.Data? && got.bytes != [] {
        var n := Min(|got.bytes|, FWD_BUF);
        fs[i] := fs[i].(c2l := got.bytes[..n] + fs[i].c2l[n..], c2lOff := 0, c2lLen := n);
        log := log + [Read(got.bytes[..n])];
      } else if got.InFailed? || (got.Data? && got.eof) {
        fs[i] := fs[i].(chanEof := true);
        log := log + [ChanEnded];
      }
    }
  }

  /** `libssh2_channel_write` until the buffer is empty or the call blocks or fails. */
  method ToChannel(fs: array<Forward>, i: nat, log0: Log, writes: seq<OutAnswer>) returns (log: Log)
    requires i < fs.Length && Bounded(fs[i])
    modifies fs
    ensures Flow(fs[i], log) == Write(Flow(old(fs[i]), log0), writes)
    ensures fs[..] == old(fs[..])[i := fs[i]]
  {
    log := log0;
    var k := 0;
    while fs[i].l2cLen > fs[i].l2cOff
      invariant Bounded(fs[i]) && k <= |writes|
      invariant Write(Flow(fs[i], log), writes[k..]) == Write(Flow(old(fs[i]), log0), writes)
      invariant forall j | 0 <= j < fs.Length && j != i :: fs[j] == old(fs[j])
      decreases |writes| - k, fs[i].l2cLen - fs[i].l2cOff
    {
      if k == |writes| || writes[k].OutBlocked? {
        break;
      }
      if writes[k].OutFailed? {
        fs[i] := fs[i].(localEof := true, l2cOff := 0, l2cLen := 0);
        log := log + [WriteFailed];
        break;
      }
      var w := Min(writes[k].n, fs[i].l2cLen - fs[i].l2cOff);
      log := log + [Wrote(fs[i].l2c[fs[i].l2cOff..fs[i].l2cOff + w])];
      fs[i] := fs[i].(l2cOff := fs[i].l2cOff + w);
      assert writes[k..][1..] == writes[k + 1..];
      k := k + 1;
    }
  }

  /** `send` until the buffer is empty or the call blocks, takes nothing or fails. */
  method ToLocal(fs: array<Forward>, i: nat, log0: Log, sends: seq<OutAnswer>) returns (log: Log)
    requires i < fs.Length && Bounded(fs[i])
    modifies fs
    ensures Flow(fs[i], log) == Send(Flow(old(fs[i]), log0), sends)
    ensures fs[..] == old(fs[..])[i := fs[i]]
  {
    log := log0;
    var k := 0;
    while fs[i].c2lLen > fs[i].c2lOff
      invariant Bounded(fs[i]) && k <= |sends|
      invariant Send(Flow(fs[i], log), sends[k..]) == Send(Flow(old(fs[i]), log0), sends)
      invariant forall j | 0 <= j < fs.Length && j != i :: fs[j] == old(fs[j])
      decreases |sends| - k, fs[i].c2lLen - fs[i].c2lOff
    {
      ghost var before := Flow(fs[i], log);
      if k < |sends| && sends[k].Took? && sends[k].n > 0 {
        var w := Min(sends[k].n, fs[i].c2lLen - fs[i].c2lOff);
        log := log + [Sent(fs[i].c2l[fs[i].c2lOff..fs[i].c2lOff + w])];
        fs[i] := fs[i].(c2lOff := fs[i].c2lOff + w);
        assert Send(before, sends[k..]) == Send(Flow(fs[i], log), sends[k..][1..]);
        assert sends[k..][1..] == sends[k + 1..];
        k := k + 1;
      } else if k == |sends| || sends[k].OutBlocked? {
        break;
      } else {
        fs[i] := fs[i].(chanEof := true, c2lOff := 0, c2lLen := 0);
        log := log + [SendFailed];
        break;
      }
    }
  }

  /** The first half of `forward_pump`: from the socket into the buffer, from there into the channel. */
  method LocalToChannel(fs: array<Forward>, i: nat, log0: Log, a: Answers) returns (log: Log)
    requires i < fs.Length && Bounded(fs[i])
    modifies fs
    ensures Flow(fs[i], log) == FinishWrite(Write(Recv(Flow(old(fs[i]), log0), a.recv), a.writes))
    ensures fs[..] == old(fs[..])[i := fs[i]]
  {
    log := FromLocal(fs, i, log0, a.recv);
    log := ToChannel(fs, i, log, a.writes);
    if fs[i].l2cOff == fs[i].l2cLen {
      fs[i] := fs[i].(l2cOff := 0, l2cLen := 0);
      if fs[i].localEof {
        log := log + [EofSent];
      }
    }
  }

  /** The second half: from the channel into the buffer, from there into the socket. */
  method ChannelToLocal(fs: array<Forward>, i: nat, log0: Log, a: Answers) returns (log: Log)
    requires i < fs.Length && Bounded(fs[i])
    modifies fs
    ensures Flow(fs[i], log) == FinishSend(Send(ReadChannel(Flow(old(fs[i]), log0), a.read), a.sends))
    ensures fs[..] == old(fs[..])[i := fs[i]]
  {
    log := FromChannel(fs, i, log0, a.read);
    log := ToLocal(fs, i, log, a.sends);
    if fs[i].c2lOff == fs[i].c2lLen {
      fs[i] := fs[i].(c2lOff := 0, c2lLen := 0);
    }
  }

  /** `forward_drop(&forwards[i])`. */
  method ForwardDrop(fs: array<Forward>, i: nat, log0: Log) returns (log: Log)
    requires i < fs.Length
    modifies fs
    ensures Flow(fs[i], log) == Drop(Flow(old(fs[i]), log0))
    ensures fs[..] == old(fs[..])[i := fs[i]]
  {
    log := log0;
    if fs[i].chan.Some? {
      log := log + [ChannelFreed];
      fs[i] := fs[i].(chan := None);
    }
    if fs[i].local.Some? {
      log := log + [SocketClosed];
      fs[i] := fs[i].(local := None);
    }
  }

  /** `forward_pump(&forwards[i])`: true to keep it. */
  method ForwardPump(fs: array<Forward>, i: nat, log0: Log, a: Answers) returns (keep: bool, log: Log)
    requires i < fs.Length && Bounded(fs[i])
    modifies fs
    ensures keep == Keeps(Flow(old(fs[i]), log0), a)
    ensures Flow(fs[i], log) == Pump(Flow(old(fs[i]), log0), a)
    ensures fs[..] == old(fs[..])[i := fs[i]]
  {
    log := LocalToChannel(fs, i, log0, a);
    log := ChannelToLocal(fs, i, log, a);
    keep := true;
    if Finished(fs[i]) {
      log := ForwardDrop(fs, i, log);
      keep := false;
    }
  }

  // ---------------------------------------------------------------- the code: the array and its thread

  /** `at` is a one-to-one index of the first `n` entries by connection number. */
  ghost predicate Placed(fs: seq<Forward>, n: nat, at: map<nat, nat>) {
    && n <= |fs|
    && (forall id <- at :: at[id] < n && fs[at[id]].chan == Some(id))
    && (forall k | 0 <= k < n :: fs[k].chan.Some? && fs[k].chan.value in at && at[fs[k].chan.value] == k)
  }

  /** The first `n` entries of the array are the live forwards. */
  ghost predicate Holds(fs: seq<Forward>, n: nat, live: map<nat, Forward>, at: map<nat, nat>) {
    Placed(fs, n, at) && at.Keys == live.Keys && forall id <- at :: fs[at[id]] == live[id]
  }

  /** Where a pass stands: entries before `i` were pumped and kept, those from `i` on were not
      reached, and whoever is in neither part was pumped and dropped. */
  ghost predicate Passing(fs: seq<Forward>, i: nat, n: nat, logs: seq<Log>, t: Tunnel, out: map<nat, Outcome>,
                          at: map<nat, nat>, pumped: set<nat>)
    requires out.Keys == t.live.Keys
  {
    && i <= n && Placed(fs, n, at) && |logs| == |t.logs| && at.Keys <= t.live.Keys && pumped <= t.live.Keys
    && (forall id <- at :: (id in pumped <==> at[id] < i)
                           && fs[at[id]] == if id in pumped then out[id].flow.f else t.live[id])
    && (forall id <- t.live :: id in at <==> id !in pumped || out[id].keep)
    && (forall id | 0 <= id < |logs| :: logs[id] == if id in pumped then out[id].flow.log else t.logs[id])
  }

  lemma PassAt(fs: seq<Forward>, i: nat, n: nat, logs: seq<Log>, t: Tunnel, out: map<nat, Outcome>,
               at: map<nat, nat>, pumped: set<nat>) returns (id: nat)
    requires out.Keys == t.live.Keys && WellFormed(t) && i < n && Passing(fs, i, n, logs, t, out, at, pumped)
    ensures fs[i].chan == Some(id) && id in t.live && id < |logs| && FlowOf(t, id) == Flow(fs[i], logs[id])
  {
    id := fs[i].chan.value;
    assert at[id] == i;
  }

  lemma PassKeeps(fs: seq<Forward>, i: nat, n: nat, logs: seq<Log>, t: Tunnel, out: map<nat, Outcome>,
                  at: map<nat, nat>, pumped: set<nat>, id: nat)
    requires out.Keys == t.live.Keys && Passing(fs, i, n, logs, t, out, at, pumped)
    requires i < n && fs[i].chan == Some(id) && id < |logs| && out[id].keep && out[id].flow.f.chan == Some(id)
    ensures Passing(fs[i := out[id].flow.f], i + 1, n, logs[id := out[id].flow.log], t, out, at, pumped + {id})
  {
    var fs' := fs[i := out[id].flow.f];
    assert forall k | 0 <= k < n :: fs'[k].chan == fs[k].chan;
  }

  lemma Refill(fs: seq<Forward>, fs': seq<Forward>, i: nat, n: nat, at: map<nat, nat>, id: nat)
    returns (at': map<nat, nat>)
    requires Placed(fs, n, at) && i < n && fs[i].chan == Some(id) && |fs'| == |fs|
    requires forall k | 0 <= k < n - 1 :: fs'[k] == fs[if k == i then n - 1 else k]
    ensures Placed(fs', n - 1, at') && at'.Keys == at.Keys - {id}
    ensures forall j <- at' :: at'[j] == if at[j] == n - 1 then i else at[j]
  {
    at' := map j | j in at && j != id :: if at[j] == n - 1 then i else at[j];
    forall k | 0 <= k < n - 1
      ensures fs'[k].chan.Some? && fs'[k].chan.value in at' && at'[fs'[k].chan.value] == k
    {
      assert at[fs[if k == i then n - 1 else k].chan.value] == if k == i then n - 1 else k;
    }
  }

  /** The last entry fills the hole of a forward that closed. */
  lemma PassDrops(fs: seq<Forward>, i: nat, n: nat, logs: seq<Log>, t: Tunnel, out: map<nat, Outcome>,
                  at: map<nat, nat>, pumped: set<nat>, id: nat, gone: Forward) returns (at': map<nat, nat>)
    requires out.Keys == t.live.Keys && Passing(fs, i, n, logs, t, out, at, pumped)
    requires i < n && fs[i].chan == Some(id) && id < |logs| && !out[id].keep
    ensures var fs1 := fs[i := gone];
            Passing(fs1[i := fs1[n - 1]], i, n - 1, logs[id := out[id].flow.log], t, out, at', pumped + {id})
  {
    var fs1 := fs[i := gone];
    var fs' := fs1[i := fs1[n - 1]];
    at' := Refill(fs, fs', i, n, at, id);
    forall j | j in at'
      ensures fs'[at'[j]] == fs[at[j]] && (at'[j] < i <==> at[j] < i)
    {
      assert at[j] != i;
    }
  }

  /** The array after entry `i` became `f`: a forward that closed is replaced by the last one. */
  function AfterEntry(fs: seq<Forward>, i: nat, n: nat, f: Forward, keep: bool): seq<Forward>
    requires i < n <= |fs|
  {
    if keep then fs[i := f] else fs[i := f][i := fs[i := f][n - 1]]
  }

  /** One entry on, whichever way it went. */
  lemma PassStep(fs: seq<Forward>, i: nat, n: nat, logs: seq<Log>, t: Tunnel, out: map<nat, Outcome>,
                 at: map<nat, nat>, pumped: set<nat>, id: nat, f: Forward) returns (at': map<nat, nat>)
    requires out.Keys == t.live.Keys && Passing(fs, i, n, logs, t, out, at, pumped)
    requires i < n && fs[i].chan == Some(id) && id < |logs|
    requires out[id].keep ==> f == out[id].flow.f && f.chan == Some(id)
    ensures var keep := out[id].keep;
            Passing(AfterEntry(fs, i, n, f, keep), if keep then i + 1 else i, if keep then n else n - 1,
                    logs[id := out[id].flow.log], t, out, at', pumped + {id})
  {
    if out[id].keep {
      PassKeeps(fs, i, n, logs, t, out, at, pumped, id);
      at' := at;
    } else {
      at' := PassDrops(fs, i, n, logs, t, out, at, pumped, id, f);
    }
  }

  lemma PassEnds(fs: seq<Forward>, n: nat, logs: seq<Log>, t: Tunnel, out: map<nat, Outcome>,
                 at: map<nat, nat>, pumped: set<nat>)
    requires out.Keys == t.live.Keys && Passing(fs, n, n, logs, t, out, at, pumped)
    ensures logs == Settle(t, out).logs && Holds(fs, n, Settle(t, out).live, at)
  {
    assert pumped == t.live.Keys;
    assert at.Keys == Settle(t, out).live.Keys;
  }

  /** `forward_pump` on the entry of connection `id`, told by what it makes of that forward; the hole of one that
      closed is filled by the last. */
  method PumpAt(fs: array<Forward>, i: nat, n: nat, logs: seq<Log>, io: nat -> Answers,
                ghost t: Tunnel, ghost out: map<nat, Outcome>, id: nat)
    returns (keep: bool, log: Log)
    requires WellFormed(t) && id in t.live && i < n <= fs.Length && id < |logs| && out == Outcomes(t, io)
    requires FlowOf(t, id) == Flow(fs[i], logs[id])
    modifies fs
    ensures keep == out[id].keep && log == out[id].flow.log
    ensures fs[..] == AfterEntry(old(fs[..]), i, n, out[id].flow.f, keep)
  {
    keep, log := ForwardPump(fs, i, logs[id], io(id));
    assert Outcome(Flow(fs[i], log), keep) == out[id];
    if !keep {
      fs[i] := fs[n - 1];
    }
  }

  /** The body of the loop: pump entry `i`, then step over it or fill its hole. */
  method PumpEntry(fs: array<Forward>, i: nat, n: nat, logs: seq<Log>, io: nat -> Answers,
                   ghost t: Tunnel, ghost out: map<nat, Outcome>, ghost at: map<nat, nat>, ghost pumped: set<nat>)
    returns (i': nat, n': nat, logs': seq<Log>, ghost at': map<nat, nat>, ghost pumped': set<nat>)
    requires WellFormed(t) && out == Outcomes(t, io) && i < n && Passing(fs[..], i, n, logs, t, out, at, pumped)
    modifies fs
    ensures i <= i' && n' <= n && n' - i' < n - i
    ensures Passing(fs[..], i', n', logs', t, out, at', pumped')
  {
    ghost var g := PassAt(fs[..], i, n, logs, t, out, at, pumped);
    at' := PassStep(fs[..], i, n, logs, t, out, at, pumped, g, out[g].flow.f);
    var id := fs[i].chan.value;
    var keep, log := PumpAt(fs, i, n, logs, io, t, out, id);
    i', n' := if keep then i + 1 else i, if keep then n else n - 1;
    logs', pumped' := logs[id := log], pumped + {g};
  }

  /** One pass over the array: every forward live at its start is pumped exactly once, whatever the
      order in which holes are filled, and exactly those to keep are left. */
  method PumpPass(fs: array<Forward>, n0: nat, logs0: seq<Log>, io: nat -> Answers,
                  ghost t: Tunnel, ghost at0: map<nat, nat>)
    returns (n: nat, logs: seq<Log>, ghost at: map<nat, nat>)
    requires WellFormed(t) && logs0 == t.logs && Holds(fs[..], n0, t.live, at0)
    modifies fs
    ensures n <= n0 && logs == PumpAll(t, io).logs && Holds(fs[..], n, PumpAll(t, io).live, at)
  {
    n, logs, at := n0, logs0, at0;
    var i := 0;
    ghost var pumped: set<nat> := {};
    while i < n
      invariant n <= n0 && Passing(fs[..], i, n, logs, t, Outcomes(t, io), at, pumped)
      decreases n - i
    {
      i, n, logs, at, pumped := PumpEntry(fs, i, n, logs, io, t, Outcomes(t, io), at, pumped);
    }
    PassEnds(fs[..], n, logs, t, Outcomes(t, io), at, pumped);
  }

  lemma {:induction false} HeldCount(fs: seq<Forward>, n: nat, live: map<nat, Forward>, at: map<nat, nat>)
    requires Holds(fs, n, live, at)
    ensures |live| == n
    decreases n
  {
    if n == 0 {
      assert live.Keys == {};
    } else {
      var id := fs[n - 1].chan.value;
      HeldCount(fs, n - 1, live - {id}, at - {id});
      assert live.Keys == (live - {id}).Keys + {id};
    }
  }

  lemma NewPlace(fs: seq<Forward>, n: nat, t: Tunnel, at: map<nat, nat>)
    requires WellFormed(t) && Holds(fs, n, t.live, at) && n < |fs|
    ensures var f := NewForward(|t.logs|);
            Holds(fs[n := f], n + 1, t.live[|t.logs| := f], at[|t.logs| := n])
  {
    assert |t.logs| !in t.live;
  }

  /** Accepting: a new entry after the last, unless the array is full or the channel did not open. */
  method AcceptInto(fs: array<Forward>, n0: nat, logs0: seq<Log>, l: Listener,
                    ghost t: Tunnel, ghost at0: map<nat, nat>)
    returns (n: nat, logs: seq<Log>, ghost at: map<nat, nat>)
    requires fs.Length == MAX_FORWARDS && WellFormed(t) && logs0 == t.logs && Holds(fs[..], n0, t.live, at0)
    modifies fs
    ensures logs == Accept(t, l).logs && Holds(fs[..], n, Accept(t, l).live, at)
  {
    n, logs, at := n0, logs0, at0;
    HeldCount(fs[..], n, t.live, at);
    if l.Connection? && n < MAX_FORWARDS {
      if l.channelOpens {
        ghost var before := fs[..];
        fs[n] := NewForward(|logs|);
        NewPlace(before, n, t, at);
        at := at[|logs| := n];
        assert fs[..] == before[n := NewForward(|logs|)];
        n := n + 1;
        logs := logs + [[Accepted, ChannelOpened]];
      } else {
        logs := logs + [[Accepted, SocketClosed]];
      }
    }
  }

  lemma HeldAt(fs: seq<Forward>, n: nat, t: Tunnel, at: map<nat, nat>, k: nat) returns (id: nat)
    requires WellFormed(t) && Holds(fs, n, t.live, at) && k < n
    ensures fs[k].chan == Some(id) && id in t.live && at[id] == k && fs[k] == t.live[id]
    ensures forall j <- t.live :: j != id ==> at[j] != k
  {
    id := fs[k].chan.value;
  }

  /** Where the shutdown stands: the forwards placed before `k` were dropped. */
  ghost predicate Dropped(logs: seq<Log>, t: Tunnel, out: map<nat, Outcome>, at: map<nat, nat>, k: nat) {
    && |logs| == |t.logs| && out.Keys == t.live.Keys == at.Keys
    && forall id | 0 <= id < |logs| :: logs[id] == if id in out && at[id] < k then out[id].flow.log else t.logs[id]
  }

  lemma DroppedOne(logs: seq<Log>, t: Tunnel, out: map<nat, Outcome>, at: map<nat, nat>, k: nat, g: nat)
    requires Dropped(logs, t, out, at, k) && g in at && at[g] == k && g < |logs|
    requires forall j <- t.live :: j != g ==> at[j] != k
    ensures Dropped(logs[g := out[g].flow.log], t, out, at, k + 1)
  {
  }

  lemma DroppedAll(logs: seq<Log>, t: Tunnel, at: map<nat, nat>, n: nat)
    requires WellFormed(t) && Dropped(logs, t, Drops(t), at, n) && forall id <- at :: at[id] < n
    ensures logs == DropAll(t).logs
  {
  }

  /** `forward_drop` on the entry of connection `g`. */
  method DropAt(fs: array<Forward>, k: nat, logs: seq<Log>, ghost t: Tunnel, ghost g: nat) returns (id: nat, log: Log)
    requires WellFormed(t) && k < fs.Length && g in t.live && g < |logs| && FlowOf(t, g) == Flow(fs[k], logs[g])
    modifies fs
    ensures id == g && log == Drops(t)[g].flow.log
    ensures fs[k + 1..] == old(fs[k + 1..])
  {
    id := fs[k].chan.value;
    log := ForwardDrop(fs, k, logs[id]);
  }

  /** Shutdown: the first `n` entries are dropped; the stale copies behind them are not touched. */
  method DropRest(fs: array<Forward>, n: nat, logs0: seq<Log>, ghost t: Tunnel, ghost at: map<nat, nat>)
    returns (logs: seq<Log>)
    requires WellFormed(t) && logs0 == t.logs && Holds(fs[..], n, t.live, at)
    modifies fs
    ensures logs == DropAll(t).logs
  {
    logs := logs0;
    ghost var fs0 := fs[..];
    var k := 0;
    while k < n
      invariant k <= n && Dropped(logs, t, Drops(t), at, k)
      invariant fs[k..] == fs0[k..]
    {
      ghost var g := HeldAt(fs0, n, t, at, k);
      assert fs[k] == fs[k..][0] == fs0[k] && fs0[k + 1..] == fs0[k..][1..] == fs[k + 1..];
      var id, log := DropAt(fs, k, logs, t, g);
      DroppedOne(logs, t, Drops(t), at, k, g);
      logs := logs[id := log];
      k := k + 1;
    }
    DroppedAll(logs, t, at, n);
  }

  /** One turn of the loop: who connected, then one pass over the array. */
  method TakeTurn(fs: array<Forward>, n0: nat, logs0: seq<Log>, turn: Turn, ghost t: Tunnel, ghost at0: map<nat, nat>)
    returns (n: nat, logs: seq<Log>, ghost at: map<nat, nat>)
    requires fs.Length == MAX_FORWARDS && WellFormed(t) && logs0 == t.logs && Holds(fs[..], n0, t.live, at0)
    modifies fs
    ensures logs == AfterTurn(t, turn).logs && Holds(fs[..], n, AfterTurn(t, turn).live, at)
  {
    n, logs, at := n0, logs0, at0;
    if turn.Ready? {
      n, logs, at := AcceptInto(fs, n, logs, turn.listener, t, at);
      n, logs, at := PumpPass(fs, n, logs, turn.io, Accept(t, turn.listener), at);
    }
  }

  /** `forward_thread`: the array, its count and the turns of the loop, over any schedule. */
  method Thread(schedule: seq<Turn>) returns (logs: seq<Log>)
    ensures logs == Run(Tunnel(map[], []), schedule).logs
    ensures forall log <- logs :: Accounted(log)
    ensures forall id | 0 <= id < |logs| && id !in BeforeStop(Tunnel(map[], []), schedule).live ::
              Sum(logs[id]).chanOpen ==> Delivered(Sum(logs[id]))
  {
    var fs := new Forward[MAX_FORWARDS](_ => NewForward(0));
    var n: nat := 0;
    logs := [];
    ghost var t := Tunnel(map[], []);
    ghost var at: map<nat, nat> := map[];
    var k := 0;
    while k < |schedule| && !schedule[k].SelectFailed?
      invariant k <= |schedule| && fs.Length == MAX_FORWARDS
      invariant WellFormed(t) && logs == t.logs && Holds(fs[..], n, t.live, at)
      invariant BeforeStop(t, schedule[k..]) == BeforeStop(Tunnel(map[], []), schedule)
    {
      assert schedule[k..][1..] == schedule[k + 1..];
      n, logs, at := TakeTurn(fs, n, logs, schedule[k], t, at);
      t := AfterTurn(t, schedule[k]);
      k := k + 1;
    }
    RunReleasesAll(Tunnel(map[], []), schedule);
    logs := DropRest(fs, n, logs, t, at);
  }
}
