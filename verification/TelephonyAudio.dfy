/** The audio side of the telephony service: conservation over whole runs and the drain rate. */
module TelephonyAudio {
  import opened Basics
  import opened TelephonySpec

  // ---------------------------------------------------------------- conservation

  /** Sent payload followed by what is still queued is what was accepted, in order. */
  ghost predicate Conserved(s: State) {
    PayloadOf(s.trace) + s.queued == HeardOf(s.trace)
  }

  lemma {:induction false} NoAudioTo(t: seq<Act>, n: nat, m: nat)
    requires n <= m <= |t| && forall i :: n <= i < m ==> !t[i].Frame? && !t[i].Heard?
    ensures FoldTo(AddPayload, [], t, m) == FoldTo(AddPayload, [], t, n)
    ensures FoldTo(AddHeard, [], t, m) == FoldTo(AddHeard, [], t, n)
    decreases m
  {
    if n < m {
      NoAudioTo(t, n, m - 1);
    }
  }

  lemma AddsNoAudio(t: seq<Act>, t': seq<Act>)
    requires Adds(t, t')
    ensures PayloadOf(t') == PayloadOf(t) && HeardOf(t') == HeardOf(t)
  {
    NoAudioTo(t', |t|, |t'|);
    FoldToPrefix(AddPayload, [], t, t', |t|);
    FoldToPrefix(AddHeard, [], t, t', |t|);
  }

  lemma AudioLog(s: State, a: Act)
    ensures PayloadOf(Log(s, a).trace) == AddPayload(PayloadOf(s.trace), a)
    ensures HeardOf(Log(s, a).trace) == AddHeard(HeardOf(s.trace), a)
  {
    FoldSnoc(AddPayload, [], s.trace, a);
    FoldSnoc(AddHeard, [], s.trace, a);
  }

  lemma ConnectConserves(s: State, id: string, credentials: bool)
    requires WF(s) && Conserved(s)
    ensures Conserved(Connect(s, id, credentials).0)
  {
    if s.conn.None? && credentials {
      var c := |s.clients|;
      var begun := s.(conn := Some(c), clients := s.clients + [Closed], selfId := id);
      AudioLog(begun, Opened(c, id));
      AddsNoAudio(Log(begun, Opened(c, id)).trace, Connect(s, id, credentials).0.trace);
    }
  }

  lemma DisconnectConserves(s: State)
    requires WF(s) && Conserved(s)
    ensures Conserved(Disconnect(s).0)
  {
    if s.conn.Some? {
      AudioLog(CloseClient(s, s.conn.value), UserClose(s.conn.value));
    }
  }

  lemma CallConserves(s: State, format: Option<AudioFormat>)
    requires Conserved(s)
    ensures Conserved(Answer(s, format).0) && Conserved(HangUp(s).0)
  {
    if s.conn.Some? {
      AudioLog(s, AnswerMsg(s.conn.value));
      AudioLog(s, HangUpMsg(s.conn.value));
    }
  }

  lemma AudioInConserves(s: State, audio: Bytes)
    requires Conserved(s)
    ensures Conserved(SendAudioIn(s, audio))
  {
    AudioLog(s, Heard(audio));
    assert PayloadOf(s.trace) + (s.queued + audio) == HeardOf(s.trace) + audio;
  }

  lemma TickConserves(s: State)
    requires Conserved(s)
    ensures Conserved(OnSendAudioData(s))
  {
    if s.conn.Some? && s.inCall {
      TickMeaning(s);
      var r := OnSendAudioData(s);
      var f := r.trace[|s.trace|];
      assert PayloadOf(r.trace) + r.queued == PayloadOf(s.trace) + (f.data[..f.payload] + r.queued);
    }
  }

  lemma QuietConserves(s: State, r: State)
    requires Conserved(s) && Quiet(s, r)
    ensures Conserved(r)
  {
    AddsNoAudio(s.trace, r.trace);
  }

  lemma StepConserves(s: State, e: Event)
    requires WF(s) && Conserved(s)
    ensures Conserved(Step(s, e))
  {
    match e
    case EConnect(id, credentials) => ConnectConserves(s, id, credentials);
    case EAnswer(format) => CallConserves(s, format);
    case EAudioIn(audio) => AudioInConserves(s, audio);
    case EDisconnect => DisconnectConserves(s);
    case EHangUp => CallConserves(s, None);
    case ESendTick => TickConserves(s);
    case EReconnectTimer =>
      if s.reconnect == Pending {
        QuietConserves(s.(reconnect := Fired), Step(s, e));
      }
    case EDeliver(c) =>
      if c in s.undelivered {
        QuietConserves(s.(undelivered := s.undelivered - multiset{c}), Step(s, e));
      }
    case _ =>
  }

  /**
    One tick during a call: the frame has exactly sendBytes bytes; its payload is the next bytes of the
    queue; it is padded, with zeros, only when the queue is then empty.
  */
  lemma TickMeaning(s: State)
    requires s.conn.Some? && s.inCall
    ensures
      var r := OnSendAudioData(s);
      var f := r.trace[|s.trace|];
      && r.trace == s.trace + [f] && f.Frame? && Some(f.client) == s.conn
      && |f.data| == s.sendBytes && f.payload <= |f.data|
      && f.data[..f.payload] + r.queued == s.queued
      && (forall i :: f.payload <= i < |f.data| ==> f.data[i] == 0)
      && (f.payload < |f.data| ==> r.queued == [])
      && PayloadOf(r.trace) == PayloadOf(s.trace) + f.data[..f.payload]
      && HeardOf(r.trace) == HeardOf(s.trace)
      && r == s.(queued := r.queued, trace := r.trace)
  {
    var p := Min(s.sendBytes, |s.queued|);
    var data := s.queued[..p] + Zeros(s.sendBytes - p);
    AudioLog(s, Frame(s.conn.value, data, p));
    assert data[..p] == s.queued[..p];
  }

  lemma {:induction false} RunConserves(s: State, es: seq<Event>)
    requires WF(s) && Conserved(s)
    ensures Conserved(Run(s, es))
    decreases |es|
  {
    if es != [] {
      StepConserves(s, es[0]);
      RunConserves(Step(s, es[0]), es[1..]);
    }
  }

  /**
    Whatever calls are answered and hung up, by either side, and however often the link is lost: the
    payload sent so far followed by the queue is the accepted audio. Nothing is lost, repeated or
    reordered.
  */
  lemma AudioConservation(attempts: seq<Attempt>, es: seq<Event>)
    ensures Conserved(Run(Init(attempts), es))
  {
    RunConserves(Init(attempts), es);
  }

  // ---------------------------------------------------------------- drain rate

  predicate Supported(es: seq<Event>) {
    forall i :: 0 <= i < |es| && es[i].EAnswer? ==> es[i].format.Some?
  }

  ghost predicate CallDrains(s: State) {
    s.inCall ==> s.conn.Some? && s.sendTimer
  }

  lemma StepKeepsDraining(s: State, e: Event)
    requires WF(s) && CallDrains(s) && (e.EAnswer? ==> e.format.Some?)
    ensures CallDrains(Step(s, e))
  {
  }

  lemma {:induction false} RunKeepsDraining(s: State, es: seq<Event>)
    requires WF(s) && CallDrains(s) && Supported(es)
    ensures CallDrains(Run(s, es))
    decreases |es|
  {
    if es != [] {
      StepKeepsDraining(s, es[0]);
      RunKeepsDraining(Step(s, es[0]), es[1..]);
    }
  }

  /** While the audio format is supported, a call in any reachable state has a client and a running send timer. */
  lemma InCallMeansDraining(attempts: seq<Attempt>, es: seq<Event>)
    requires Supported(es) && Run(Init(attempts), es).inCall
    ensures DuringCall(Run(Init(attempts), es))
  {
    RunKeepsDraining(Init(attempts), es);
  }

  function Ticks(k: nat): seq<Event> {
    seq(k, _ => ESendTick)
  }

  function CeilDiv(b: nat, n: nat): nat
    requires n > 0
  {
    (b + n - 1) / n
  }

  /** What is left of b bytes after k frames of n bytes. */
  function Left(b: nat, n: nat, k: nat): nat {
    if k * n >= b then 0 else b - k * n
  }

  lemma LeftShift(b: nat, n: nat, k: nat)
    requires k > 0
    ensures Left(b, n, k) == Left(b - Min(n, b), n, k - 1)
  {
    assert (k - 1) * n == k * n - n;
    assert (k - 1) * n >= 0;
  }

  ghost predicate DuringCall(s: State) {
    WF(s) && s.conn.Some? && s.inCall && s.sendTimer
  }

  lemma {:induction false} DrainState(s: State, k: nat)
    requires DuringCall(s)
    ensures DuringCall(Run(s, Ticks(k))) && Run(s, Ticks(k)).sendBytes == s.sendBytes
    ensures |Run(s, Ticks(k)).queued| == Left(|s.queued|, s.sendBytes, k)
    ensures |Run(s, Ticks(k)).trace| == |s.trace| + k && s.trace <= Run(s, Ticks(k)).trace
    decreases k
  {
    if k > 0 {
      TickMeaning(s);
      assert Ticks(k)[1..] == Ticks(k - 1);
      DrainState(OnSendAudioData(s), k - 1);
      LeftShift(|s.queued|, s.sendBytes, k);
    }
  }

  ghost predicate IsFrame(a: Act, n: nat, payload: int) {
    a.Frame? && |a.data| == n && a.payload == payload
  }

  lemma {:induction false} RunTicks(s: State, k: nat)
    requires WF(s) && s.sendTimer && k > 0
    ensures Run(s, Ticks(k)) == Run(OnSendAudioData(s), Ticks(k - 1))
  {
    assert Ticks(k)[0] == ESendTick && Ticks(k)[1..] == Ticks(k - 1);
  }

  lemma {:induction false} FirstFrame(s: State, k: nat)
    requires DuringCall(s) && 0 < k
    ensures |Run(s, Ticks(k)).trace| == |s.trace| + k
    ensures IsFrame(Run(s, Ticks(k)).trace[|s.trace|], s.sendBytes, Min(s.sendBytes, |s.queued|))
  {
    TickMeaning(s);
    RunTicks(s, k);
    DrainState(OnSendAudioData(s), k - 1);
  }

  lemma {:induction false} DrainFrame(s: State, k: nat, i: nat)
    requires DuringCall(s) && i < k
    ensures |Run(s, Ticks(k)).trace| == |s.trace| + k
    ensures IsFrame(Run(s, Ticks(k)).trace[|s.trace| + i], s.sendBytes,
                    Min(s.sendBytes, Left(|s.queued|, s.sendBytes, i)))
    decreases k
  {
    if i == 0 {
      FirstFrame(s, k);
    } else {
      TickMeaning(s);
      RunTicks(s, k);
      DrainFrame(OnSendAudioData(s), k - 1, i - 1);
      LeftShift(|s.queued|, s.sendBytes, i);
    }
  }

  lemma CeilMeaning(b: nat, n: nat, i: nat)
    requires n > 0
    ensures Left(b, n, i) > 0 <==> i < CeilDiv(b, n)
  {
    var q := CeilDiv(b, n);
    DivMeaning(b + n - 1, n);
    MulLe(i + 1, q, n);
    MulLe(q, i, n);
    assert (i + 1) * n == i * n + n;
  }

  lemma FloorMeaning(b: nat, n: nat, i: nat)
    requires n > 0
    ensures Left(b, n, i) >= n <==> i < b / n
  {
    DivMeaning(b, n);
    MulLe(i + 1, b / n, n);
    MulLe(b / n, i, n);
    assert (i + 1) * n == i * n + n;
  }

  /**
    With b bytes queued and no new audio, k ticks of a call leave max(0, b - k*n) bytes and send k
    frames; the first ceil(b/n) of them, and no others, carry payload; the first floor(b/n) carry no
    padding.
  */
  lemma {:induction false} DrainBound(s: State, k: nat, i: nat)
    requires DuringCall(s) && s.sendBytes > 0 && i < k
    ensures |Run(s, Ticks(k)).queued| == Left(|s.queued|, s.sendBytes, k)
    ensures |Run(s, Ticks(k)).trace| == |s.trace| + k
    ensures
      var f := Run(s, Ticks(k)).trace[|s.trace| + i];
      && f.Frame? && |f.data| == s.sendBytes
      && (f.payload > 0 <==> i < CeilDiv(|s.queued|, s.sendBytes))
      && (f.payload == |f.data| <==> i < |s.queued| / s.sendBytes)
  {
    DrainState(s, k);
    DrainFrame(s, k, i);
    CeilMeaning(|s.queued|, s.sendBytes, i);
    FloorMeaning(|s.queued|, s.sendBytes, i);
  }
}
