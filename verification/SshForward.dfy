/** The forwarding loop of core/src/conn/ssh_tunnel.c: one local socket paired with one SSH
    channel per forward, a bounded buffer per direction, and a thread that accepts, pumps and
    compacts an array of forwards until it is told to stop.

    The sockets and libssh2 are an oracle: every answer they may give is a parameter.  What the
    code did to them is recorded call by call in a log, one log per accepted connection. */
module SshForward {
  import opened Prelude

  const FWD_BUF: nat := 16384
  const MAX_FORWARDS: nat := 32

  type Buffer = s: seq<byte> | |s| == FWD_BUF witness seq(FWD_BUF, _ => 0)

  /** `forward_t`.  A socket and a channel are named by the number of the accepted connection
      they belong to; None is BAD_SOCKET and the NULL channel. */
  datatype Forward = Forward(
    local: Option<nat>, chan: Option<nat>,
    l2c: Buffer, l2cOff: nat, l2cLen: nat,
    c2l: Buffer, c2lOff: nat, c2lLen: nat,
    localEof: bool, chanEof: bool)

  // ---------------------------------------------------------------- the outside

  /** What `recv` or `libssh2_channel_read` answers.  `Data` offers bytes of which at most
      FWD_BUF are taken; offering none is the return value 0, which on a channel means the end
      only if `libssh2_channel_eof` says so. */
  datatype InAnswer = Data(bytes: seq<byte>, eof: bool) | InBlocked | InFailed

  /** What `libssh2_channel_write` or `send` answers: it takes at most `n` of the bytes offered. */
  datatype OutAnswer = Took(n: nat) | OutBlocked | OutFailed

  /** Everything the outside answers during one pump.  The n-th drain call gets the n-th entry
      of `writes` (or of `sends`); when the list is used up the call would block. */
  datatype Answers = Answers(recv: InAnswer, writes: seq<OutAnswer>, read: InAnswer, sends: seq<OutAnswer>)

  /** One call with an effect, as it shows on the outside. */
  datatype Event =
    | Accepted | ChannelOpened
    | Recvd(data: seq<byte>) | LocalEnded
    | Wrote(data: seq<byte>) | WriteFailed | EofSent
    | Read(data: seq<byte>) | ChanEnded
    | Sent(data: seq<byte>) | SendFailed
    | ChannelFreed | SocketClosed

  type Log = seq<Event>

  /** A forward together with the calls made on its behalf so far. */
  datatype Flow = Flow(f: Forward, log: Log)

  // ---------------------------------------------------------------- the pump, as a function

  predicate Bounded(f: Forward) {
    f.l2cOff <= f.l2cLen <= FWD_BUF && f.c2lOff <= f.c2lLen <= FWD_BUF
  }

  function Fill(buf: Buffer, got: seq<byte>): Buffer
    requires |got| <= FWD_BUF
  {
    got + buf[|got|..]
  }

  function Recv(s: Flow, a: InAnswer): (r: Flow)
    requires Bounded(s.f)
    ensures Bounded(r.f) && r.f.local == s.f.local && r.f.chan == s.f.chan
  {
    if s.f.localEof || s.f.l2cLen != 0 || a.InBlocked? then s
    else
      var got := if a.Data? then a.bytes[..Min(|a.bytes|, FWD_BUF)] else [];
      if got == [] then Flow(s.f.(localEof := true), s.log + [LocalEnded])
      else Flow(s.f.(l2c := Fill(s.f.l2c, got), l2cOff := 0, l2cLen := |got|), s.log + [Recvd(got)])
  }

  /** After a call that took the first `w` pending bytes. */
  function AfterWrote(s: Flow, w: nat): (r: Flow)
    requires Bounded(s.f) && w <= s.f.l2cLen - s.f.l2cOff
    ensures Bounded(r.f)
  {
    Flow(s.f.(l2cOff := s.f.l2cOff + w), s.log + [Wrote(s.f.l2c[s.f.l2cOff..s.f.l2cOff + w])])
  }

  function Write(s: Flow, answers: seq<OutAnswer>): (r: Flow)
    requires Bounded(s.f)
    ensures Bounded(r.f) && r.f.local == s.f.local && r.f.chan == s.f.chan
    decreases |answers|
  {
    if s.f.l2cLen == s.f.l2cOff || answers == [] || answers[0].OutBlocked? then s
    else if answers[0].OutFailed? then
      Flow(s.f.(localEof := true, l2cOff := 0, l2cLen := 0), s.log + [WriteFailed])
    else
      var w := Min(answers[0].n, s.f.l2cLen - s.f.l2cOff);
      Write(AfterWrote(s, w), answers[1..])
  }

  function FinishWrite(s: Flow): (r: Flow)
    requires Bounded(s.f)
    ensures Bounded(r.f) && r.f.local == s.f.local && r.f.chan == s.f.chan
  {
    if s.f.l2cOff != s.f.l2cLen then s
    else Flow(s.f.(l2cOff := 0, l2cLen := 0), if s.f.localEof then s.log + [EofSent] else s.log)
  }

  function ReadChannel(s: Flow, a: InAnswer): (r: Flow)
    requires Bounded(s.f)
    ensures Bounded(r.f) && r.f.local == s.f.local && r.f.chan == s.f.chan
  {
    if s.f.chanEof || s.f.c2lLen != 0 || a.InBlocked? then s
    else
      var got := if a.Data? then a.bytes[..Min(|a.bytes|, FWD_BUF)] else [];
      if got != [] then
        Flow(s.f.(c2l := Fill(s.f.c2l, got), c2lOff := 0, c2lLen := |got|), s.log + [Read(got)])
      else if a.InFailed? || a.eof then Flow(s.f.(chanEof := true), s.log + [ChanEnded])
      else s
  }

  function AfterSent(s: Flow, w: nat): (r: Flow)
    requires Bounded(s.f) && w <= s.f.c2lLen - s.f.c2lOff
    ensures Bounded(r.f)
  {
    Flow(s.f.(c2lOff := s.f.c2lOff + w), s.log + [Sent(s.f.c2l[s.f.c2lOff..s.f.c2lOff + w])])
  }

  function Send(s: Flow, answers: seq<OutAnswer>): (r: Flow)
    requires Bounded(s.f)
    ensures Bounded(r.f) && r.f.local == s.f.local && r.f.chan == s.f.chan
    decreases |answers|
  {
    if s.f.c2lLen == s.f.c2lOff || answers == [] || answers[0].OutBlocked? then s
    else if answers[0].OutFailed? || answers[0].n == 0 then
      Flow(s.f.(chanEof := true, c2lOff := 0, c2lLen := 0), s.log + [SendFailed])
    else
      var w := Min(answers[0].n, s.f.c2lLen - s.f.c2lOff);
      Send(AfterSent(s, w), answers[1..])
  }

  function FinishSend(s: Flow): (r: Flow)
    requires Bounded(s.f)
    ensures Bounded(r.f) && r.f.local == s.f.local && r.f.chan == s.f.chan
  {
    if s.f.c2lOff != s.f.c2lLen then s else s.(f := s.f.(c2lOff := 0, c2lLen := 0))
  }

  function Drop(s: Flow): Flow {
    var s1 := if s.f.chan.Some? then Flow(s.f.(chan := None), s.log + [ChannelFreed]) else s;
    if s1.f.local.Some? then Flow(s1.f.(local := None), s1.log + [SocketClosed]) else s1
  }

  predicate Finished(f: Forward) {
    f.localEof && f.chanEof && f.l2cLen == f.l2cOff && f.c2lLen == f.c2lOff
  }

  /** The forward after both directions moved, before the decision to drop it. */
  function Moved(s: Flow, a: Answers): (r: Flow)
    requires Bounded(s.f)
    ensures Bounded(r.f) && r.f.local == s.f.local && r.f.chan == s.f.chan
  {
    FinishSend(Send(ReadChannel(FinishWrite(Write(Recv(s, a.recv), a.writes)), a.read), a.sends))
  }

  predicate Keeps(s: Flow, a: Answers)
    requires Bounded(s.f)
  {
    !Finished(Moved(s, a).f)
  }

  function Pump(s: Flow, a: Answers): (r: Flow)
    requires Bounded(s.f)
    ensures Bounded(r.f)
  {
    if Keeps(s, a) then Moved(s, a) else Drop(Moved(s, a))
  }

  // ---------------------------------------------------------------- what a log may look like

  /** What a log adds up to: the bytes that crossed each of the four edges, and what happened. */
  datatype Tally = Tally(
    fromLocal: seq<byte>, toChan: seq<byte>, fromChan: seq<byte>, toLocal: seq<byte>,
    accepted: bool, chanOpen: bool, localEnded: bool, writeFailed: bool, eofSent: bool,
    chanEnded: bool, sendFailed: bool, freed: bool, closed: bool)

  const BLANK := Tally([], [], [], [], false, false, false, false, false, false, false, false, false)

  function Count(t: Tally, e: Event): (r: Tally)
    ensures r.eofSent == (t.eofSent || e.EofSent?)
    ensures r.freed == (t.freed || e.ChannelFreed?)
    ensures r.closed == (t.closed || e.SocketClosed?)
  {
    match e
    case Accepted => t.(accepted := true)
    case ChannelOpened => t.(chanOpen := true)
    case Recvd(d) => t.(fromLocal := t.fromLocal + d)
    case LocalEnded => t.(localEnded := true)
    case Wrote(d) => t.(toChan := t.toChan + d)
    case WriteFailed => t.(writeFailed := true)
    case EofSent => t.(eofSent := true)
    case Read(d) => t.(fromChan := t.fromChan + d)
    case ChanEnded => t.(chanEnded := true)
    case Sent(d) => t.(toLocal := t.toLocal + d)
    case SendFailed => t.(sendFailed := true)
    case ChannelFreed => t.(freed := true)
    case SocketClosed => t.(closed := true)
  }

  function Sum(log: Log): Tally {
    if log == [] then BLANK else Count(Sum(log[..|log| - 1]), log[|log| - 1])
  }

  /** Both ends are there: the channel was opened and neither end was released. */
  predicate Up(t: Tally) {
    t.accepted && t.chanOpen && !t.freed && !t.closed
  }

  /** The rules of a byte-faithful forward: may `e` be the next call? */
  predicate Permitted(t: Tally, e: Event) {
    match e
    case Accepted => t == BLANK
    case ChannelOpened => t == BLANK.(accepted := true)
    case Recvd(d) => Up(t) && 0 < |d| <= FWD_BUF && !t.localEnded && !t.writeFailed
    case LocalEnded => Up(t) && !t.localEnded && !t.writeFailed
    case Wrote(d) => Up(t) && !t.eofSent && !t.writeFailed && t.toChan + d <= t.fromLocal
    case WriteFailed => Up(t) && !t.eofSent && !t.writeFailed && t.toChan < t.fromLocal
    case EofSent => Up(t) && ((t.localEnded && t.toChan == t.fromLocal) || t.writeFailed)
    case Read(d) => Up(t) && 0 < |d| <= FWD_BUF && !t.chanEnded && !t.sendFailed
    case ChanEnded => Up(t) && !t.chanEnded && !t.sendFailed
    case Sent(d) => Up(t) && 0 < |d| && !t.sendFailed && t.toLocal + d <= t.fromChan
    case SendFailed => Up(t) && !t.sendFailed && t.toLocal < t.fromChan
    case ChannelFreed => Up(t)
    case SocketClosed => t.accepted && !t.closed && t.chanOpen == t.freed
  }

  predicate Legal(log: Log) {
    log == [] || (Legal(log[..|log| - 1]) && Permitted(Sum(log[..|log| - 1]), log[|log| - 1]))
  }

  lemma Append(h: Log, e: Event)
    ensures Sum(h + [e]) == Count(Sum(h), e)
    ensures Legal(h + [e]) <==> Legal(h) && Permitted(Sum(h), e)
  {
    assert (h + [e])[..|h|] == h && (h + [e])[|h|] == e;
  }

  // ---------------------------------------------------------------- the invariant

  /** The local-to-channel half: cursors and flag against the tally. */
  predicate UpLinked(f: Forward, t: Tally)
    requires Bounded(f)
  {
    && (f.localEof <==> t.localEnded || t.writeFailed)
    && (f.localEof ==> f.l2cOff == f.l2cLen)
    && (t.eofSent ==> f.localEof)
    && (if t.writeFailed then t.toChan <= t.fromLocal
        else t.fromLocal == t.toChan + f.l2c[f.l2cOff..f.l2cLen])
  }

  /** The channel-to-local half. */
  predicate DownLinked(f: Forward, t: Tally)
    requires Bounded(f)
  {
    && (f.chanEof <==> t.chanEnded || t.sendFailed)
    && (f.chanEof ==> f.c2lOff == f.c2lLen)
    && (if t.sendFailed then t.toLocal <= t.fromChan
        else t.fromChan == t.toLocal + f.c2l[f.c2lOff..f.c2lLen])
  }

  /** How a forward relates to the calls made for it, at every point of a pump. */
  predicate Linked(s: Flow) {
    var t := Sum(s.log);
    && Bounded(s.f) && Legal(s.log) && Up(t) && s.f.local.Some? && s.f.chan.Some?
    && UpLinked(s.f, t) && DownLinked(s.f, t)
  }

  /** The same between pumps: drained buffers are rewound, and the local end was passed on. */
  predicate Rested(s: Flow) {
    && Linked(s)
    && (s.f.l2cOff == s.f.l2cLen ==> s.f.l2cLen == 0)
    && (s.f.c2lOff == s.f.c2lLen ==> s.f.c2lLen == 0)
    && (s.f.localEof ==> Sum(s.log).eofSent)
  }

  // ---------------------------------------------------------------- each part of a pump keeps it

  lemma TookIn(f: Forward, t: Tally, got: seq<byte>)
    requires Bounded(f) && |got| <= FWD_BUF
    ensures UpLinked(f, t) && !f.localEof && f.l2cOff == f.l2cLen ==>
              UpLinked(f.(l2c := Fill(f.l2c, got), l2cOff := 0, l2cLen := |got|), Count(t, Recvd(got)))
    ensures DownLinked(f, t) && !f.chanEof && f.c2lOff == f.c2lLen ==>
              DownLinked(f.(c2l := Fill(f.c2l, got), c2lOff := 0, c2lLen := |got|), Count(t, Read(got)))
  {
    assert Fill(f.l2c, got)[0..|got|] == got && Fill(f.c2l, got)[0..|got|] == got;
  }

  /** What is pending from `from` on, cut at `mid`: what was passed on grows by the first piece. */
  lemma Advances(whole: seq<byte>, done: seq<byte>, buf: Buffer, from: nat, mid: nat, to: nat)
    requires from <= mid <= to <= FWD_BUF && whole == done + buf[from..to]
    ensures whole == done + buf[from..mid] + buf[mid..to] && done + buf[from..mid] <= whole
  {
    var piece, rest := buf[from..mid], buf[mid..to];
    assert buf[from..to] == piece + rest;
    assert done + (piece + rest) == done + piece + rest;
  }

  lemma GaveUp(f: Forward, t: Tally, w: nat)
    requires Bounded(f) && UpLinked(f, t) && !t.writeFailed && w <= f.l2cLen - f.l2cOff
    ensures t.toChan + f.l2c[f.l2cOff..f.l2cOff + w] <= t.fromLocal
    ensures UpLinked(f.(l2cOff := f.l2cOff + w), t.(toChan := t.toChan + f.l2c[f.l2cOff..f.l2cOff + w]))
  {
    Advances(t.fromLocal, t.toChan, f.l2c, f.l2cOff, f.l2cOff + w, f.l2cLen);
  }

  lemma GaveDown(f: Forward, t: Tally, w: nat)
    requires Bounded(f) && DownLinked(f, t) && !t.sendFailed && w <= f.c2lLen - f.c2lOff
    ensures t.toLocal + f.c2l[f.c2lOff..f.c2lOff + w] <= t.fromChan
    ensures DownLinked(f.(c2lOff := f.c2lOff + w), t.(toLocal := t.toLocal + f.c2l[f.c2lOff..f.c2lOff + w]))
  {
    Advances(t.fromChan, t.toLocal, f.c2l, f.c2lOff, f.c2lOff + w, f.c2lLen);
  }

  lemma SentHolds(f: Forward, t: Tally, w: nat)
    requires Bounded(f) && UpLinked(f, t) && DownLinked(f, t) && Up(t) && 0 < w <= f.c2lLen - f.c2lOff
    ensures var f', d := f.(c2lOff := f.c2lOff + w), f.c2l[f.c2lOff..f.c2lOff + w];
            var t' := Count(t, Sent(d));
            Permitted(t, Sent(d)) && Up(t') && UpLinked(f', t') && DownLinked(f', t')
  {
    GaveDown(f, t, w);
    var d := f.c2l[f.c2lOff..f.c2lOff + w];
    assert Count(t, Sent(d)) == t.(toLocal := t.toLocal + d);
  }

  lemma WroteHolds(f: Forward, t: Tally, w: nat)
    requires Bounded(f) && UpLinked(f, t) && DownLinked(f, t) && Up(t) && f.l2cOff < f.l2cLen
    requires w <= f.l2cLen - f.l2cOff
    ensures var f', d := f.(l2cOff := f.l2cOff + w), f.l2c[f.l2cOff..f.l2cOff + w];
            var t' := Count(t, Wrote(d));
            Permitted(t, Wrote(d)) && Up(t') && UpLinked(f', t') && DownLinked(f', t')
  {
    GaveUp(f, t, w);
    var d := f.l2c[f.l2cOff..f.l2cOff + w];
    assert Count(t, Wrote(d)) == t.(toChan := t.toChan + d);
  }

  lemma WroteOnce(s: Flow, w: nat)
    requires Linked(s) && s.f.l2cOff < s.f.l2cLen && w <= s.f.l2cLen - s.f.l2cOff
    ensures Linked(AfterWrote(s, w))
  {
    Append(s.log, Wrote(s.f.l2c[s.f.l2cOff..s.f.l2cOff + w]));
    WroteHolds(s.f, Sum(s.log), w);
  }

  lemma WriteBroke(s: Flow)
    requires Linked(s) && s.f.l2cOff < s.f.l2cLen
    ensures Linked(Flow(s.f.(localEof := true, l2cOff := 0, l2cLen := 0), s.log + [WriteFailed]))
  {
    Append(s.log, WriteFailed);
  }

  lemma SentOnce(s: Flow, w: nat)
    requires Linked(s) && s.f.c2lOff < s.f.c2lLen && 0 < w <= s.f.c2lLen - s.f.c2lOff
    ensures Linked(AfterSent(s, w))
  {
    var t, d := Sum(s.log), s.f.c2l[s.f.c2lOff..s.f.c2lOff + w];
    Append(s.log, Sent(d));
    SentHolds(s.f, t, w);
  }

  lemma SendBroke(s: Flow)
    requires Linked(s) && s.f.c2lOff < s.f.c2lLen
    ensures Linked(Flow(s.f.(chanEof := true, c2lOff := 0, c2lLen := 0), s.log + [SendFailed]))
  {
    Append(s.log, SendFailed);
  }

  lemma RecvLinked(s: Flow, a: InAnswer)
    requires Linked(s)
    ensures s.f.l2cLen == 0 || s.f.l2cOff < s.f.l2cLen ==> Linked(Recv(s, a))
    ensures Recv(s, a).f.l2cOff == Recv(s, a).f.l2cLen ==> Recv(s, a).f.l2cLen == s.f.l2cLen
  {
    if s.f.localEof || s.f.l2cLen != 0 || a.InBlocked? { return; }
    var got := if a.Data? then a.bytes[..Min(|a.bytes|, FWD_BUF)] else [];
    if got == [] {
      Append(s.log, LocalEnded);
    } else {
      Append(s.log, Recvd(got));
      TookIn(s.f, Sum(s.log), got);
      assert Linked(Flow(s.f.(l2c := Fill(s.f.l2c, got), l2cOff := 0, l2cLen := |got|), s.log + [Recvd(got)]));
    }
  }

  lemma {:induction false} WriteLinked(s: Flow, answers: seq<OutAnswer>)
    requires Linked(s)
    ensures Linked(Write(s, answers))
    decreases |answers|
  {
    if s.f.l2cLen == s.f.l2cOff || answers == [] || answers[0].OutBlocked? {
    } else if answers[0].OutFailed? {
      WriteBroke(s);
    } else {
      var w := Min(answers[0].n, s.f.l2cLen - s.f.l2cOff);
      WroteOnce(s, w);
      var next := AfterWrote(s, w);
      assert Write(s, answers) == Write(next, answers[1..]);
      WriteLinked(next, answers[1..]);
    }
  }

  /** A drained buffer may be rewound, and once the local side has ended the far end may be told. */
  lemma RewoundUp(f: Forward, t: Tally)
    requires Bounded(f) && UpLinked(f, t) && DownLinked(f, t) && Up(t) && f.l2cOff == f.l2cLen
    ensures var f' := f.(l2cOff := 0, l2cLen := 0);
            UpLinked(f', t) && DownLinked(f', t)
            && (f.localEof ==> Permitted(t, EofSent) && Up(Count(t, EofSent))
                               && UpLinked(f', Count(t, EofSent)) && DownLinked(f', Count(t, EofSent)))
  {
    assert f.l2c[f.l2cOff..f.l2cLen] == [] == f.l2c[0..0];
    assert t.toChan + [] == t.toChan;
  }

  lemma FinishWriteLinked(s: Flow)
    requires Linked(s)
    ensures Linked(FinishWrite(s))
    ensures var r := FinishWrite(s);
            (r.f.l2cOff == r.f.l2cLen ==> r.f.l2cLen == 0) && (r.f.localEof ==> Sum(r.log).eofSent)
  {
    if s.f.l2cOff == s.f.l2cLen {
      RewoundUp(s.f, Sum(s.log));
      Append(s.log, EofSent);
    }
  }

  /** Everything but the channel-to-local half. */
  predicate SameUp(s: Flow, r: Flow) {
    && r.f.l2cOff == s.f.l2cOff && r.f.l2cLen == s.f.l2cLen && r.f.localEof == s.f.localEof
    && Sum(r.log).eofSent == Sum(s.log).eofSent
  }

  lemma ReadOnce(s: Flow, got: seq<byte>)
    requires Linked(s) && 0 < |got| <= FWD_BUF && !s.f.chanEof && s.f.c2lOff == s.f.c2lLen
    ensures var next := Flow(s.f.(c2l := Fill(s.f.c2l, got), c2lOff := 0, c2lLen := |got|), s.log + [Read(got)]);
            Linked(next) && SameUp(s, next)
  {
    Append(s.log, Read(got));
    TookIn(s.f, Sum(s.log), got);
  }

  lemma ReadLinked(s: Flow, a: InAnswer)
    requires Linked(s)
    ensures s.f.c2lLen == 0 || s.f.c2lOff < s.f.c2lLen ==> Linked(ReadChannel(s, a))
    ensures SameUp(s, ReadChannel(s, a))
  {
    if s.f.chanEof || s.f.c2lLen != 0 || a.InBlocked? { return; }
    var got := if a.Data? then a.bytes[..Min(|a.bytes|, FWD_BUF)] else [];
    if got != [] {
      ReadOnce(s, got);
    } else if a.InFailed? || a.eof {
      Append(s.log, ChanEnded);
    }
  }

  lemma {:induction false} SendSameUp(s: Flow, answers: seq<OutAnswer>)
    requires Bounded(s.f)
    ensures SameUp(s, Send(s, answers))
    decreases |answers|
  {
    if s.f.c2lLen == s.f.c2lOff || answers == [] || answers[0].OutBlocked? {
    } else if answers[0].OutFailed? || answers[0].n == 0 {
      assert SameUp(s, Send(s, answers)) by { Append(s.log, SendFailed); }
    } else {
      var w := Min(answers[0].n, s.f.c2lLen - s.f.c2lOff);
      var next := AfterSent(s, w);
      assert Send(s, answers) == Send(next, answers[1..]);
      assert SameUp(s, next) by { Append(s.log, Sent(s.f.c2l[s.f.c2lOff..s.f.c2lOff + w])); }
      SendSameUp(next, answers[1..]);
    }
  }

  lemma {:induction false} SendLinked(s: Flow, answers: seq<OutAnswer>)
    requires Linked(s)
    ensures Linked(Send(s, answers))
    decreases |answers|
  {
    if s.f.c2lLen == s.f.c2lOff || answers == [] || answers[0].OutBlocked? {
    } else if answers[0].OutFailed? || answers[0].n == 0 {
      SendBroke(s);
    } else {
      var w := Min(answers[0].n, s.f.c2lLen - s.f.c2lOff);
      SentOnce(s, w);
      var next := AfterSent(s, w);
      assert Send(s, answers) == Send(next, answers[1..]);
      SendLinked(next, answers[1..]);
    }
  }

  lemma {:induction false} WriteKeepsDown(s: Flow, answers: seq<OutAnswer>)
    requires Bounded(s.f)
    ensures Write(s, answers).f.c2lOff == s.f.c2lOff && Write(s, answers).f.c2lLen == s.f.c2lLen
    decreases |answers|
  {
    if !(s.f.l2cLen == s.f.l2cOff || answers == [] || answers[0].OutBlocked? || answers[0].OutFailed?) {
      var w := Min(answers[0].n, s.f.l2cLen - s.f.l2cOff);
      var next := AfterWrote(s, w);
      assert Write(s, answers) == Write(next, answers[1..]);
      WriteKeepsDown(next, answers[1..]);
    }
  }

  lemma RecvKeepsDown(s: Flow, a: InAnswer)
    requires Bounded(s.f)
    ensures Recv(s, a).f.c2lOff == s.f.c2lOff && Recv(s, a).f.c2lLen == s.f.c2lLen
  {
  }

  lemma FinishWriteKeepsDown(s: Flow)
    requires Bounded(s.f)
    ensures FinishWrite(s).f.c2lOff == s.f.c2lOff && FinishWrite(s).f.c2lLen == s.f.c2lLen
  {
  }

  /** The local-to-channel half of a pump: afterwards its buffer is rewound if drained, and the end was passed on. */
  lemma UpMoved(s: Flow, a: Answers)
    requires Rested(s)
    ensures var r := FinishWrite(Write(Recv(s, a.recv), a.writes));
            && Linked(r) && (r.f.l2cOff == r.f.l2cLen ==> r.f.l2cLen == 0) && (r.f.localEof ==> Sum(r.log).eofSent)
            && (r.f.c2lOff == r.f.c2lLen ==> r.f.c2lLen == 0)
  {
    var s1 := Recv(s, a.recv);
    var s2 := Write(s1, a.writes);
    RecvLinked(s, a.recv);
    RecvKeepsDown(s, a.recv);
    WriteLinked(s1, a.writes);
    WriteKeepsDown(s1, a.writes);
    FinishWriteLinked(s2);
    FinishWriteKeepsDown(s2);
  }

  lemma FinishSendLinked(s: Flow)
    requires Linked(s)
    ensures Linked(FinishSend(s)) && SameUp(s, FinishSend(s))
    ensures FinishSend(s).f.c2lOff == FinishSend(s).f.c2lLen ==> FinishSend(s).f.c2lLen == 0
  {
    if s.f.c2lOff == s.f.c2lLen {
      assert s.f.c2l[s.f.c2lOff..s.f.c2lLen] == [] == s.f.c2l[0..0];
    }
  }

  /** The other half leaves what that one achieved. */
  lemma DownMoved(s: Flow, a: Answers)
    requires Linked(s) && (s.f.c2lOff == s.f.c2lLen ==> s.f.c2lLen == 0)
    ensures var r := FinishSend(Send(ReadChannel(s, a.read), a.sends));
            Linked(r) && SameUp(s, r) && (r.f.c2lOff == r.f.c2lLen ==> r.f.c2lLen == 0)
  {
    var s4 := ReadChannel(s, a.read);
    var s5 := Send(s4, a.sends);
    ReadLinked(s, a.read);
    SendLinked(s4, a.sends);
    SendSameUp(s4, a.sends);
    FinishSendLinked(s5);
  }

  /** Both directions of one pump keep every byte accounted for, whatever the outside answers. */
  lemma MovedRested(s: Flow, a: Answers)
    requires Rested(s)
    ensures Rested(Moved(s, a))
  {
    UpMoved(s, a);
    DownMoved(FinishWrite(Write(Recv(s, a.recv), a.writes)), a);
  }

  /** Everything that went in came out, in both directions, and the far end was told. */
  predicate Delivered(t: Tally) {
    && (t.localEnded || t.writeFailed) && (t.chanEnded || t.sendFailed) && t.eofSent
    && (t.writeFailed || t.toChan == t.fromLocal)
    && (t.sendFailed || t.toLocal == t.fromChan)
  }

  lemma BothReleased(log: Log)
    requires Legal(log) && Up(Sum(log))
    ensures log + [ChannelFreed] + [SocketClosed] == log + [ChannelFreed, SocketClosed]
    ensures Legal(log + [ChannelFreed, SocketClosed])
    ensures Sum(log + [ChannelFreed, SocketClosed]) == Sum(log).(freed := true, closed := true)
  {
    Append(log, ChannelFreed);
    Append(log + [ChannelFreed], SocketClosed);
    assert log + [ChannelFreed] + [SocketClosed] == log + [ChannelFreed, SocketClosed];
  }

  lemma DropReleases(s: Flow)
    requires Linked(s)
    ensures Legal(Drop(s).log) && Drop(s).log == s.log + [ChannelFreed, SocketClosed]
    ensures Sum(Drop(s).log) == Sum(s.log).(freed := true, closed := true)
    ensures Drop(s).f.local.None? && Drop(s).f.chan.None?
  {
    BothReleased(s.log);
  }

  /** A forward the pump drops has delivered everything it took in; any other goes on as before. */
  lemma PumpRested(s: Flow, a: Answers)
    requires Rested(s)
    ensures Keeps(s, a) ==> Rested(Pump(s, a))
    ensures !Keeps(s, a) ==>
              var t := Sum(Pump(s, a).log);
              Legal(Pump(s, a).log) && t.freed && t.closed && Delivered(t)
  {
    MovedRested(s, a);
    if !Keeps(s, a) {
      DropReleases(Moved(s, a));
    }
  }

  // ---------------------------------------------------------------- what a pump achieves

  /** How many of n pending bytes the calls take: as offered, until one would block or fails. */
  function Taken(answers: seq<OutAnswer>, n: nat): (k: nat)
    ensures k <= n
  {
    if n == 0 || answers == [] || !answers[0].Took? then 0
    else
      var w := Min(answers[0].n, n);
      w + Taken(answers[1..], n - w)
  }

  /** Whether a call fails before all n bytes are taken. */
  predicate Breaks(answers: seq<OutAnswer>, n: nat) {
    n > 0 && answers != [] &&
    (answers[0].OutFailed? || (answers[0].Took? && Breaks(answers[1..], n - Min(answers[0].n, n))))
  }

  /** What `send` answers, where taking nothing is failing. */
  function AsSent(answers: seq<OutAnswer>): (r: seq<OutAnswer>)
    ensures |r| == |answers|
  {
    if answers == [] then [] else [if answers[0] == Took(0) then OutFailed else answers[0]] + AsSent(answers[1..])
  }

  /** The bytes one call makes available. */
  function Got(a: InAnswer): seq<byte> {
    if a.Data? then a.bytes[..Min(|a.bytes|, FWD_BUF)] else []
  }

  predicate UpIdle(t: Tally) {
    !t.localEnded && !t.writeFailed && |t.toChan| == |t.fromLocal|
  }

  predicate DownIdle(t: Tally) {
    !t.chanEnded && !t.sendFailed && |t.toLocal| == |t.fromChan|
  }

  /** What came in from the local side: it is listened to when nothing is pending. */
  function UpHeard(t: Tally, recv: InAnswer): Tally {
    var heard := if UpIdle(t) then Got(recv) else [];
    t.(fromLocal := t.fromLocal + heard,
       localEnded := t.localEnded || (UpIdle(t) && heard == [] && !recv.InBlocked?))
  }

  /** As many of the pending bytes passed on as the channel takes; once all are through the far end is told. */
  function UpPassed(t: Tally, writes: seq<OutAnswer>): Tally
    requires |t.toChan| <= |t.fromLocal|
  {
    if t.writeFailed then t.(eofSent := true)
    else
      var left := |t.fromLocal| - |t.toChan|;
      var failed := Breaks(writes, left);
      t.(toChan := t.fromLocal[..|t.toChan| + Taken(writes, left)], writeFailed := failed,
         eofSent := t.eofSent || failed || (t.localEnded && Taken(writes, left) == left))
  }

  function DownHeard(t: Tally, read: InAnswer): Tally {
    var heard := if DownIdle(t) then Got(read) else [];
    t.(fromChan := t.fromChan + heard,
       chanEnded := t.chanEnded || (DownIdle(t) && heard == [] && (read.InFailed? || (read.Data? && read.eof))))
  }

  function DownPassed(t: Tally, sends: seq<OutAnswer>): Tally
    requires |t.toLocal| <= |t.fromChan|
  {
    if t.sendFailed then t
    else
      var left := |t.fromChan| - |t.toLocal|;
      t.(toLocal := t.fromChan[..|t.toLocal| + Taken(AsSent(sends), left)], sendFailed := Breaks(AsSent(sends), left))
  }

  /** A pump of a forward that has no buffers, only the tally of what crossed each edge. */
  function Relayed(t: Tally, a: Answers): Tally
    requires |t.toChan| <= |t.fromLocal| && |t.toLocal| <= |t.fromChan|
  {
    DownPassed(DownHeard(UpPassed(UpHeard(t, a.recv), a.writes), a.read), a.sends)
  }

  /** Nothing is pending exactly when the buffer is empty, between pumps and before a half of one. */
  lemma IdleIff(f: Forward, t: Tally)
    requires Bounded(f) && UpLinked(f, t) && DownLinked(f, t)
    ensures (f.l2cOff == f.l2cLen ==> f.l2cLen == 0) ==> (UpIdle(t) <==> !f.localEof && f.l2cLen == 0)
    ensures (f.c2lOff == f.c2lLen ==> f.c2lLen == 0) ==> (DownIdle(t) <==> !f.chanEof && f.c2lLen == 0)
  {
  }

  lemma UpHeardIs(t: Tally, a: InAnswer)
    ensures UpHeard(t, a)
         == if UpIdle(t) && !a.InBlocked? then Count(t, if Got(a) == [] then LocalEnded else Recvd(Got(a))) else t
  {
    assert t.fromLocal + [] == t.fromLocal;
  }

  lemma RecvIs(s: Flow, a: InAnswer)
    requires Bounded(s.f)
    ensures Recv(s, a).log == if s.f.localEof || s.f.l2cLen != 0 || a.InBlocked? then s.log
                              else s.log + [if Got(a) == [] then LocalEnded else Recvd(Got(a))]
  {
  }

  lemma RecvShows(s: Flow, a: InAnswer)
    requires Linked(s) && (s.f.l2cOff == s.f.l2cLen ==> s.f.l2cLen == 0)
    ensures Sum(Recv(s, a).log) == UpHeard(Sum(s.log), a)
  {
    IdleIff(s.f, Sum(s.log));
    RecvIs(s, a);
    UpHeardIs(Sum(s.log), a);
    Append(s.log, if Got(a) == [] then LocalEnded else Recvd(Got(a)));
  }

  /** What a drain that took n of the pending bytes, and failed or not, changes. */
  predicate WroteBy(t: Tally, t': Tally, n: nat, broke: bool) {
    |t'.toChan| == |t.toChan| + n && t' == t.(toChan := t'.toChan, writeFailed := t.writeFailed || broke)
  }

  predicate WroteAs(s: Flow, r: Flow, n: nat, broke: bool) {
    && WroteBy(Sum(s.log), Sum(r.log), n, broke)
    && r.f.l2cLen - r.f.l2cOff == (if broke then 0 else s.f.l2cLen - s.f.l2cOff - n)
    && r.f.localEof == (s.f.localEof || broke)
  }

  lemma CountsPiece(t: Tally, piece: seq<byte>)
    ensures |Count(t, Wrote(piece)).toChan| == |t.toChan| + |piece|
    ensures Count(t, Wrote(piece)) == t.(toChan := Count(t, Wrote(piece)).toChan)
    ensures |Count(t, Sent(piece)).toLocal| == |t.toLocal| + |piece|
    ensures Count(t, Sent(piece)) == t.(toLocal := Count(t, Sent(piece)).toLocal)
  {
  }

  lemma WroteOne(s: Flow, w: nat)
    requires Bounded(s.f) && w <= s.f.l2cLen - s.f.l2cOff
    ensures WroteAs(s, AfterWrote(s, w), w, false)
  {
    var piece := s.f.l2c[s.f.l2cOff..s.f.l2cOff + w];
    Append(s.log, Wrote(piece));
    CountsPiece(Sum(s.log), piece);
  }

  lemma WroteOn(s: Flow, m: Flow, r: Flow, w: nat, n: nat, broke: bool)
    requires WroteAs(s, m, w, false) && WroteAs(m, r, n, broke)
    ensures WroteAs(s, r, w + n, broke)
  {
  }

  lemma WriteTakes(s: Flow, answers: seq<OutAnswer>, n: nat, w: nat)
    requires Bounded(s.f) && n == s.f.l2cLen - s.f.l2cOff && n > 0
    requires answers != [] && answers[0].Took? && w == Min(answers[0].n, n)
    ensures Write(s, answers) == Write(AfterWrote(s, w), answers[1..])
    ensures Taken(answers, n) == w + Taken(answers[1..], n - w) && Breaks(answers, n) == Breaks(answers[1..], n - w)
  {
  }

  lemma WriteStops(s: Flow, answers: seq<OutAnswer>, n: nat)
    requires Bounded(s.f) && n == s.f.l2cLen - s.f.l2cOff && (n == 0 || answers == [] || !answers[0].Took?)
    ensures WroteAs(s, Write(s, answers), Taken(answers, n), Breaks(answers, n))
  {
    Append(s.log, WriteFailed);
  }

  lemma {:induction false} WriteShows(s: Flow, answers: seq<OutAnswer>, n: nat)
    requires Bounded(s.f) && n == s.f.l2cLen - s.f.l2cOff
    ensures WroteAs(s, Write(s, answers), Taken(answers, n), Breaks(answers, n))
    decreases |answers|
  {
    if n == 0 || answers == [] || !answers[0].Took? {
      WriteStops(s, answers, n);
    } else {
      WriteGoesOn(s, answers, n, Min(answers[0].n, n));
    }
  }

  lemma {:induction false} WriteGoesOn(s: Flow, answers: seq<OutAnswer>, n: nat, w: nat)
    requires Bounded(s.f) && n == s.f.l2cLen - s.f.l2cOff && n > 0
    requires answers != [] && answers[0].Took? && w == Min(answers[0].n, n)
    ensures WroteAs(s, Write(s, answers), Taken(answers, n), Breaks(answers, n))
    decreases |answers|, 0
  {
    var m, rest := AfterWrote(s, w), answers[1..];
    var k, broke := Taken(rest, n - w), Breaks(rest, n - w);
    assert WroteAs(s, Write(m, rest), w + k, broke) by {
      WroteOne(s, w);
      WriteShows(m, rest, n - w);
      WroteOn(s, m, Write(m, rest), w, k, broke);
    }
    WriteTakes(s, answers, n, w);
  }

  lemma FinishWriteShows(s: Flow)
    requires Bounded(s.f)
    ensures Sum(FinishWrite(s).log)
         == Sum(s.log).(eofSent := Sum(s.log).eofSent || (s.f.localEof && s.f.l2cOff == s.f.l2cLen))
  {
    Append(s.log, EofSent);
  }

  /** What a drain took is read off the lengths, as all that comes out is what came in. */
  lemma PassedUp(f: Forward, t: Tally, f': Forward, t': Tally, writes: seq<OutAnswer>)
    requires Bounded(f) && Bounded(f') && UpLinked(f, t) && UpLinked(f', t')
    requires var n := f.l2cLen - f.l2cOff;
             && WroteBy(t, t', Taken(writes, n), Breaks(writes, n)) && f'.localEof == (f.localEof || Breaks(writes, n))
             && f'.l2cLen - f'.l2cOff == if Breaks(writes, n) then 0 else n - Taken(writes, n)
    ensures |t.toChan| <= |t.fromLocal|
    ensures t'.(eofSent := t'.eofSent || (f'.localEof && f'.l2cOff == f'.l2cLen)) == UpPassed(t, writes)
  {
    assert t.toChan <= t.fromLocal && t'.toChan <= t.fromLocal;
    assert t'.toChan == t.fromLocal[..|t'.toChan|] && t.toChan == t.fromLocal[..|t.toChan|];
    if !t.writeFailed {
      assert f.l2cLen - f.l2cOff == |t.fromLocal| - |t.toChan|;
    }
  }

  lemma DrainShows(s: Flow, writes: seq<OutAnswer>)
    requires Linked(s)
    ensures |Sum(s.log).toChan| <= |Sum(s.log).fromLocal|
    ensures Sum(FinishWrite(Write(s, writes)).log) == UpPassed(Sum(s.log), writes)
  {
    var r, n := Write(s, writes), s.f.l2cLen - s.f.l2cOff;
    assert Bounded(r.f) && UpLinked(r.f, Sum(r.log)) by {
      WriteLinked(s, writes);
    }
    assert WroteAs(s, r, Taken(writes, n), Breaks(writes, n)) by {
      WriteShows(s, writes, n);
    }
    FinishWriteShows(r);
    PassedUp(s.f, Sum(s.log), r.f, Sum(r.log), writes);
  }

  /** The buffered half of a pump comes to the same as the one without a buffer. */
  lemma UpShows(s: Flow, a: Answers)
    requires Rested(s)
    ensures var t := UpHeard(Sum(s.log), a.recv);
            |t.toChan| <= |t.fromLocal|
            && Sum(FinishWrite(Write(Recv(s, a.recv), a.writes)).log) == UpPassed(t, a.writes)
  {
    RecvLinked(s, a.recv);
    RecvShows(s, a.recv);
    DrainShows(Recv(s, a.recv), a.writes);
  }

  lemma DownHeardIs(t: Tally, a: InAnswer)
    ensures DownHeard(t, a)
         == if !DownIdle(t) || a.InBlocked? then t
            else if Got(a) != [] then Count(t, Read(Got(a)))
            else if a.InFailed? || a.eof then Count(t, ChanEnded)
            else t
  {
    assert t.fromChan + [] == t.fromChan;
  }

  lemma ReadIs(s: Flow, a: InAnswer)
    requires Bounded(s.f)
    ensures ReadChannel(s, a).log
         == if s.f.chanEof || s.f.c2lLen != 0 || a.InBlocked? then s.log
            else if Got(a) != [] then s.log + [Read(Got(a))]
            else if a.InFailed? || a.eof then s.log + [ChanEnded]
            else s.log
  {
  }

  lemma ReadShows(s: Flow, a: InAnswer)
    requires Linked(s) && (s.f.c2lOff == s.f.c2lLen ==> s.f.c2lLen == 0)
    ensures Sum(ReadChannel(s, a).log) == DownHeard(Sum(s.log), a)
  {
    IdleIff(s.f, Sum(s.log));
    ReadIs(s, a);
    DownHeardIs(Sum(s.log), a);
    Append(s.log, if Got(a) == [] then ChanEnded else Read(Got(a)));
  }

  predicate SentBy(t: Tally, t': Tally, n: nat, broke: bool) {
    |t'.toLocal| == |t.toLocal| + n && t' == t.(toLocal := t'.toLocal, sendFailed := t.sendFailed || broke)
  }

  predicate SentAs(s: Flow, r: Flow, n: nat, broke: bool) {
    SentBy(Sum(s.log), Sum(r.log), n, broke)
  }

  lemma SentOne(s: Flow, w: nat)
    requires Bounded(s.f) && w <= s.f.c2lLen - s.f.c2lOff
    ensures SentAs(s, AfterSent(s, w), w, false)
  {
    var piece := s.f.c2l[s.f.c2lOff..s.f.c2lOff + w];
    Append(s.log, Sent(piece));
    CountsPiece(Sum(s.log), piece);
  }

  lemma SentOn(s: Flow, m: Flow, r: Flow, w: nat, n: nat, broke: bool)
    requires SentAs(s, m, w, false) && SentAs(m, r, n, broke)
    ensures SentAs(s, r, w + n, broke)
  {
  }

  lemma TakenSent(answers: seq<OutAnswer>, n: nat, w: nat)
    requires n > 0 && answers != [] && answers[0].Took? && answers[0].n > 0 && w == Min(answers[0].n, n)
    ensures Taken(AsSent(answers), n) == w + Taken(AsSent(answers[1..]), n - w)
    ensures Breaks(AsSent(answers), n) == Breaks(AsSent(answers[1..]), n - w)
  {
    assert AsSent(answers) == [answers[0]] + AsSent(answers[1..]);
    assert AsSent(answers)[1..] == AsSent(answers[1..]);
  }

  lemma SendTakes(s: Flow, answers: seq<OutAnswer>, n: nat, w: nat)
    requires Bounded(s.f) && n == s.f.c2lLen - s.f.c2lOff && n > 0
    requires answers != [] && answers[0].Took? && answers[0].n > 0 && w == Min(answers[0].n, n)
    ensures Send(s, answers) == Send(AfterSent(s, w), answers[1..])
  {
  }

  lemma TakenStops(answers: seq<OutAnswer>, n: nat)
    requires n == 0 || answers == [] || !answers[0].Took? || answers[0].n == 0
    ensures Taken(AsSent(answers), n) == 0
    ensures Breaks(AsSent(answers), n) == (n > 0 && answers != [] && !answers[0].OutBlocked?)
  {
  }

  lemma SendStopIs(s: Flow, answers: seq<OutAnswer>)
    requires Bounded(s.f) && (s.f.c2lLen == s.f.c2lOff || answers == [] || !answers[0].Took? || answers[0].n == 0)
    ensures Send(s, answers).log
         == if s.f.c2lLen != s.f.c2lOff && answers != [] && !answers[0].OutBlocked? then s.log + [SendFailed] else s.log
  {
  }

  lemma SendStops(s: Flow, answers: seq<OutAnswer>, n: nat)
    requires Bounded(s.f) && n == s.f.c2lLen - s.f.c2lOff
    requires n == 0 || answers == [] || !answers[0].Took? || answers[0].n == 0
    ensures SentAs(s, Send(s, answers), Taken(AsSent(answers), n), Breaks(AsSent(answers), n))
  {
    TakenStops(answers, n);
    SendStopIs(s, answers);
    Append(s.log, SendFailed);
  }

  lemma {:induction false} SendShows(s: Flow, answers: seq<OutAnswer>, n: nat)
    requires Bounded(s.f) && n == s.f.c2lLen - s.f.c2lOff
    ensures SentAs(s, Send(s, answers), Taken(AsSent(answers), n), Breaks(AsSent(answers), n))
    decreases |answers|
  {
    if n == 0 || answers == [] || !answers[0].Took? || answers[0].n == 0 {
      SendStops(s, answers, n);
    } else {
      SendGoesOn(s, answers, n, Min(answers[0].n, n));
    }
  }

  lemma {:induction false} SendGoesOn(s: Flow, answers: seq<OutAnswer>, n: nat, w: nat)
    requires Bounded(s.f) && n == s.f.c2lLen - s.f.c2lOff && n > 0
    requires answers != [] && answers[0].Took? && answers[0].n > 0 && w == Min(answers[0].n, n)
    ensures SentAs(s, Send(s, answers), Taken(AsSent(answers), n), Breaks(AsSent(answers), n))
    decreases |answers|, 0
  {
    var m, rest := AfterSent(s, w), answers[1..];
    var k, broke := Taken(AsSent(rest), n - w), Breaks(AsSent(rest), n - w);
    assert SentAs(s, Send(m, rest), w + k, broke) by {
      SentOne(s, w);
      SendShows(m, rest, n - w);
      SentOn(s, m, Send(m, rest), w, k, broke);
    }
    SendTakes(s, answers, n, w);
    TakenSent(answers, n, w);
  }

  lemma PassedDown(f: Forward, t: Tally, f': Forward, t': Tally, sends: seq<OutAnswer>)
    requires Bounded(f) && Bounded(f') && DownLinked(f, t) && DownLinked(f', t')
    requires var n := f.c2lLen - f.c2lOff; SentBy(t, t', Taken(AsSent(sends), n), Breaks(AsSent(sends), n))
    ensures |t.toLocal| <= |t.fromChan| && t' == DownPassed(t, sends)
  {
    assert t.toLocal <= t.fromChan && t'.toLocal <= t.fromChan;
    assert t'.toLocal == t.fromChan[..|t'.toLocal|] && t.toLocal == t.fromChan[..|t.toLocal|];
    if !t.sendFailed {
      assert f.c2lLen - f.c2lOff == |t.fromChan| - |t.toLocal|;
    }
  }

  lemma SentShows(s: Flow, sends: seq<OutAnswer>)
    requires Linked(s)
    ensures |Sum(s.log).toLocal| <= |Sum(s.log).fromChan|
    ensures Sum(FinishSend(Send(s, sends)).log) == DownPassed(Sum(s.log), sends)
  {
    var r, n := Send(s, sends), s.f.c2lLen - s.f.c2lOff;
    assert Bounded(r.f) && DownLinked(r.f, Sum(r.log)) by {
      SendLinked(s, sends);
    }
    assert SentAs(s, r, Taken(AsSent(sends), n), Breaks(AsSent(sends), n)) by {
      SendShows(s, sends, n);
    }
    PassedDown(s.f, Sum(s.log), r.f, Sum(r.log), sends);
  }

  lemma DownShows(s: Flow, a: Answers)
    requires Linked(s) && (s.f.c2lOff == s.f.c2lLen ==> s.f.c2lLen == 0)
    ensures var t := DownHeard(Sum(s.log), a.read);
            |t.toLocal| <= |t.fromChan|
            && Sum(FinishSend(Send(ReadChannel(s, a.read), a.sends)).log) == DownPassed(t, a.sends)
  {
    ReadLinked(s, a.read);
    ReadShows(s, a.read);
    SentShows(ReadChannel(s, a.read), a.sends);
  }

  lemma Behind(s: Flow)
    requires Linked(s)
    ensures |Sum(s.log).toChan| <= |Sum(s.log).fromLocal| && |Sum(s.log).toLocal| <= |Sum(s.log).fromChan|
  {
  }

  /** The buffers do not show: whatever the calls answer, what crosses the four edges in one pump is what crosses
      them in a forward without any. */
  lemma MovedRelays(s: Flow, a: Answers)
    requires Rested(s)
    ensures |Sum(s.log).toChan| <= |Sum(s.log).fromLocal| && |Sum(s.log).toLocal| <= |Sum(s.log).fromChan|
    ensures Sum(Moved(s, a).log) == Relayed(Sum(s.log), a)
  {
    Behind(s);
    UpMoved(s, a);
    UpShows(s, a);
    DownShows(FinishWrite(Write(Recv(s, a.recv), a.writes)), a);
  }

  lemma FinishedIff(f: Forward, t: Tally)
    requires Bounded(f) && UpLinked(f, t) && DownLinked(f, t) && (f.localEof ==> t.eofSent)
    ensures Finished(f) <==> Delivered(t)
  {
  }

  /** The pump drops a forward exactly when it has delivered everything and both directions ended, and then
      releases both ends. */
  lemma PumpRelays(s: Flow, a: Answers)
    requires Rested(s)
    ensures |Sum(s.log).toChan| <= |Sum(s.log).fromLocal| && |Sum(s.log).toLocal| <= |Sum(s.log).fromChan|
    ensures var t := Relayed(Sum(s.log), a);
            && (Keeps(s, a) <==> !Delivered(t))
            && Sum(Pump(s, a).log) == if Delivered(t) then t.(freed := true, closed := true) else t
  {
    MovedRelays(s, a);
    MovedRested(s, a);
    FinishedIff(Moved(s, a).f, Sum(Moved(s, a).log));
    if !Keeps(s, a) {
      DropReleases(Moved(s, a));
    }
  }

  lemma {:induction false} AllTaken(answers: seq<OutAnswer>, n: nat)
    requires n <= |answers| && forall k | 0 <= k < |answers| :: answers[k].Took? && answers[k].n > 0
    ensures Taken(answers, n) == n && !Breaks(answers, n)
    decreases |answers|
  {
    if n > 0 {
      AllTaken(answers[1..], n - Min(answers[0].n, n));
    }
  }

  lemma {:induction false} TakesAreSent(answers: seq<OutAnswer>)
    requires forall k | 0 <= k < |answers| :: answers[k].Took? && answers[k].n > 0
    ensures AsSent(answers) == answers
  {
    if answers != [] {
      TakesAreSent(answers[1..]);
    }
  }

  /** Neither half touches what the other carries. */
  lemma HalvesApart(t: Tally, a: Answers)
    requires |t.toChan| <= |t.fromLocal| && |t.toLocal| <= |t.fromChan|
    ensures Relayed(t, a).toLocal == DownPassed(DownHeard(t, a.read), a.sends).toLocal
    ensures Relayed(t, a).fromChan == DownHeard(t, a.read).fromChan
    ensures Relayed(t, a).toChan == UpPassed(UpHeard(t, a.recv), a.writes).toChan
    ensures Relayed(t, a).fromLocal == UpHeard(t, a.recv).fromLocal
  {
  }

  lemma WholeDown(t: Tally, read: InAnswer, sends: seq<OutAnswer>)
    requires DownIdle(t) && t.toLocal == t.fromChan && read.Data? && 0 < |read.bytes| <= FWD_BUF
    requires Taken(AsSent(sends), |read.bytes|) == |read.bytes|
    ensures var r := DownHeard(t, read);
            r.fromChan == t.fromChan + read.bytes && DownPassed(r, sends).toLocal == t.toLocal + read.bytes
  {
    assert read.bytes[..|read.bytes|] == read.bytes;
    var all := t.fromChan + read.bytes;
    assert all[..|all|] == all;
  }

  lemma WholeUp(t: Tally, recv: InAnswer, writes: seq<OutAnswer>)
    requires UpIdle(t) && t.toChan == t.fromLocal && recv.Data? && 0 < |recv.bytes| <= FWD_BUF
    requires Taken(writes, |recv.bytes|) == |recv.bytes|
    ensures var r := UpHeard(t, recv);
            r.fromLocal == t.fromLocal + recv.bytes && UpPassed(r, writes).toChan == t.toChan + recv.bytes
  {
    assert recv.bytes[..|recv.bytes|] == recv.bytes;
    var all := t.fromLocal + recv.bytes;
    assert all[..|all|] == all;
  }

  lemma NothingPending(f: Forward, t: Tally)
    requires Bounded(f) && UpLinked(f, t) && DownLinked(f, t)
    ensures f.l2cLen == 0 && !f.localEof ==> UpIdle(t) && t.toChan == t.fromLocal
    ensures f.c2lLen == 0 && !f.chanEof ==> DownIdle(t) && t.toLocal == t.fromChan
  {
  }

  predicate AllTake(answers: seq<OutAnswer>) {
    forall k | 0 <= k < |answers| :: answers[k].Took? && answers[k].n > 0
  }

  /** What the channel sends arrives at the socket within the same pump, if each `send` takes something. */
  lemma ChannelBytesArrive(s: Flow, a: Answers)
    requires Rested(s) && s.f.c2lLen == 0 && !s.f.chanEof
    requires a.read.Data? && 0 < |a.read.bytes| <= FWD_BUF && |a.read.bytes| <= |a.sends| && AllTake(a.sends)
    ensures Sum(Moved(s, a).log).toLocal == Sum(s.log).toLocal + a.read.bytes
    ensures Sum(Moved(s, a).log).fromChan == Sum(s.log).fromChan + a.read.bytes
  {
    MovedRelays(s, a);
    HalvesApart(Sum(s.log), a);
    NothingPending(s.f, Sum(s.log));
    TakesAreSent(a.sends);
    AllTaken(a.sends, |a.read.bytes|);
    WholeDown(Sum(s.log), a.read, a.sends);
  }

  /** ... and what the local side sends arrives at the channel, if each write takes something. */
  lemma LocalBytesArrive(s: Flow, a: Answers)
    requires Rested(s) && s.f.l2cLen == 0 && !s.f.localEof
    requires a.recv.Data? && 0 < |a.recv.bytes| <= FWD_BUF && |a.recv.bytes| <= |a.writes| && AllTake(a.writes)
    ensures Sum(Moved(s, a).log).toChan == Sum(s.log).toChan + a.recv.bytes
    ensures Sum(Moved(s, a).log).fromLocal == Sum(s.log).fromLocal + a.recv.bytes
  {
    MovedRelays(s, a);
    HalvesApart(Sum(s.log), a);
    NothingPending(s.f, Sum(s.log));
    AllTaken(a.writes, |a.recv.bytes|);
    WholeUp(Sum(s.log), a.recv, a.writes);
  }

  /** The local-to-channel drain ends by itself if `channel_write` always takes something: with as
      many answers as there are bytes, the buffer is empty or the write would block or failed. */
  lemma {:induction false} WriteDrains(s: Flow, answers: seq<OutAnswer>)
    requires Bounded(s.f)
    requires s.f.l2cLen - s.f.l2cOff <= |answers|
    requires forall k :: 0 <= k < |answers| ==> answers[k].Took? && 0 < answers[k].n
    ensures var r := Write(s, answers); r.f.l2cOff == r.f.l2cLen
    decreases |answers|
  {
    if s.f.l2cLen != s.f.l2cOff {
      var w := Min(answers[0].n, s.f.l2cLen - s.f.l2cOff);
      var next := AfterWrote(s, w);
      assert Write(s, answers) == Write(next, answers[1..]);
      WriteDrains(next, answers[1..]);
    }
  }

  /** ... and it makes no progress while `channel_write` takes nothing, however often it is called. */
  lemma {:induction false} ZeroWritesSpin(s: Flow, answers: seq<OutAnswer>)
    requires Bounded(s.f) && s.f.l2cOff < s.f.l2cLen
    requires forall k :: 0 <= k < |answers| ==> answers[k] == Took(0)
    ensures Write(s, answers).f == s.f && |Write(s, answers).log| == |s.log| + |answers|
    decreases |answers|
  {
    if answers != [] {
      var next := AfterWrote(s, 0);
      assert next.f == s.f;
      assert Write(s, answers) == Write(next, answers[1..]);
      ZeroWritesSpin(next, answers[1..]);
    }
  }

  // ---------------------------------------------------------------- what a legal log guarantees

  /** What came out is a prefix of what went in, both ways; the end of file was only announced once the local side
      had ended and every byte received from it was written, or a write failed; the socket outlives the channel. */
  predicate Faithful(t: Tally) {
    && t.toChan <= t.fromLocal && t.toLocal <= t.fromChan
    && (t.eofSent ==> t.writeFailed || (t.localEnded && t.toChan == t.fromLocal))
    && (t.freed ==> t.chanOpen) && (t.closed ==> t.freed == t.chanOpen)
  }

  lemma FaithfulStep(t: Tally, e: Event)
    requires Faithful(t) && Permitted(t, e)
    ensures Faithful(Count(t, e))
  {
  }

  lemma {:induction false} LegalIsFaithful(log: Log)
    requires Legal(log)
    ensures Faithful(Sum(log))
  {
    if log != [] {
      var h, e := log[..|log| - 1], log[|log| - 1];
      assert Legal(h) && Permitted(Sum(h), e);
      LegalIsFaithful(h);
      FaithfulStep(Sum(h), e);
    }
  }

  lemma {:induction false} FlagsShow(log: Log)
    ensures Sum(log).eofSent == (EofSent in log)
    ensures Sum(log).freed == (ChannelFreed in log)
    ensures Sum(log).closed == (SocketClosed in log)
  {
    if log != [] {
      var h, e := log[..|log| - 1], log[|log| - 1];
      FlagsShow(h);
      assert Sum(log) == Count(Sum(h), e);
      assert log == h + [e];
    }
  }

  /** No data follows the end-of-file message on a channel (section 5.3 of RFC 4254), and nothing
      at all is done to either end once it was released. */
  lemma {:induction false} NothingAfter(log: Log, i: nat, j: nat)
    requires Legal(log) && i < j < |log|
    ensures log[i] == EofSent ==> !log[j].Wrote? && !log[j].Recvd?
    ensures log[i] == ChannelFreed ==> log[j] == SocketClosed
    ensures log[i] != SocketClosed
    decreases |log|
  {
    var h, e := log[..|log| - 1], log[|log| - 1];
    assert Legal(h) && Permitted(Sum(h), e);
    assert h[i] == log[i] && h[i] in h;
    if j < |h| {
      NothingAfter(h, i, j);
      assert h[j] == log[j];
    } else {
      FlagsShow(h);
      LegalIsFaithful(h);
    }
  }

  lemma CountsOneMore(h: Log, e: Event, x: Event)
    ensures multiset(h + [e])[x] == multiset(h)[x] + if e == x then 1 else 0
  {
  }

  /** Each end is released once, and never twice. */
  lemma {:induction false} ReleasedOnce(log: Log)
    requires Legal(log)
    ensures multiset(log)[SocketClosed] == (if SocketClosed in log then 1 else 0)
    ensures multiset(log)[ChannelFreed] == (if ChannelFreed in log then 1 else 0)
  {
    if log != [] {
      var h, e := log[..|log| - 1], log[|log| - 1];
      assert Legal(h) && Permitted(Sum(h), e);
      ReleasedOnce(h);
      FlagsShow(h);
      assert log == h + [e];
      CountsOneMore(h, e, SocketClosed);
      CountsOneMore(h, e, ChannelFreed);
    }
  }
}
