/**
  Hanging up does not clear the audio queue (nexmo/services/Telephony.cpp). What that means for the next
  call: which audio its frames carry.
*/
module TelephonyLeftover {
  import opened Basics
  import opened TelephonySpec
  import opened TelephonyAudio

  /** What happened from s to r, where r comes later. */
  function Since(s: State, r: State): seq<Act>
    requires |s.trace| <= |r.trace|
  {
    r.trace[|s.trace|..]
  }

  predicate NoAnswer(es: seq<Event>) {
    forall i :: 0 <= i < |es| ==> !es[i].EAnswer?
  }

  lemma {:induction false} ConnectGrows(s: State, id: string, credentials: bool)
    requires WF(s)
    ensures Extends(s.trace, Connect(s, id, credentials).0.trace)
  {
  }

  lemma {:induction false} StepGrows(s: State, e: Event)
    requires WF(s)
    ensures Extends(s.trace, Step(s, e).trace)
  {
    match e
    case EConnect(id, credentials) => ConnectGrows(s, id, credentials);
    case _ =>
  }

  lemma {:induction false} RunGrows(s: State, es: seq<Event>)
    requires WF(s)
    ensures Extends(s.trace, Run(s, es).trace)
    decreases |es|
  {
    if es != [] {
      StepGrows(s, es[0]);
      RunGrows(Step(s, es[0]), es[1..]);
    }
  }

  lemma {:induction false} AudioConcat(t: seq<Act>, u: seq<Act>, n: nat)
    requires |t| <= |u| && n <= |u| - |t| && forall i :: 0 <= i < |t| ==> u[i] == t[i]
    ensures FoldTo(AddPayload, [], u, |t| + n) == PayloadOf(t) + FoldTo(AddPayload, [], u[|t|..], n)
    ensures FoldTo(AddHeard, [], u, |t| + n) == HeardOf(t) + FoldTo(AddHeard, [], u[|t|..], n)
  {
    if n == 0 {
      FoldToPrefix(AddPayload, [], t, u, |t|);
      FoldToPrefix(AddHeard, [], t, u, |t|);
    } else {
      AudioConcat(t, u, n - 1);
      assert u[|t|..][n-1] == u[|t| + n - 1];
    }
  }

  /** Over any stretch of any run: what was sent, then the queue, is the queue there was, then what was heard. */
  lemma {:induction false} AudioBalance(s: State, es: seq<Event>)
    requires WF(s) && Conserved(s)
    ensures
      var r := Run(s, es);
      |s.trace| <= |r.trace| && PayloadOf(Since(s, r)) + r.queued == s.queued + HeardOf(Since(s, r))
  {
    var r := Run(s, es);
    RunGrows(s, es);
    RunConserves(s, es);
    var d := Since(s, r);
    AudioConcat(s.trace, r.trace, |d|);
    Cancel(PayloadOf(s.trace), s.queued, PayloadOf(d), r.queued, HeardOf(d));
  }

  lemma Cancel(p: Bytes, q: Bytes, p': Bytes, q': Bytes, h: Bytes)
    requires p + p' + q' == p + q + h
    ensures p' + q' == q + h
  {
    assert p' + q' == (p + p' + q')[|p|..];
    assert q + h == (p + q + h)[|p|..];
  }

  // ---------------------------------------------------------------- between two calls

  lemma {:induction false} IdleStep(s: State, e: Event)
    requires WF(s) && !s.inCall && !e.EAnswer?
    ensures !Step(s, e).inCall && Step(s, e).queued == s.queued
  {
  }

  /** Between two calls the queue stays as the first one left it. */
  lemma {:induction false} QueueWaits(s: State, es: seq<Event>)
    requires WF(s) && !s.inCall && NoAnswer(es)
    ensures !Run(s, es).inCall && Run(s, es).queued == s.queued
    decreases |es|
  {
    if es != [] {
      IdleStep(s, es[0]);
      QueueWaits(Step(s, es[0]), es[1..]);
    }
  }

  // ---------------------------------------------------------------- the next call

  /** No tick will send payload before the next answer. */
  predicate Silent(s: State) {
    !s.sendTimer || s.sendBytes == 0
  }

  lemma {:induction false} LinkSilent(s: State, id: string, credentials: bool)
    requires WF(s)
    ensures PayloadOf(Connect(s, id, credentials).0.trace) == PayloadOf(s.trace)
    ensures PayloadOf(Disconnect(s).0.trace) == PayloadOf(s.trace)
  {
    if s.conn.None? && credentials {
      var c := |s.clients|;
      var begun := s.(conn := Some(c), clients := s.clients + [Closed], selfId := id);
      AudioLog(begun, Opened(c, id));
      AddsNoAudio(Log(begun, Opened(c, id)).trace, Connect(s, id, credentials).0.trace);
    } else if s.conn.Some? {
      AudioLog(CloseClient(s, s.conn.value), UserClose(s.conn.value));
    }
  }

  lemma {:induction false} SilentStep(s: State, e: Event)
    requires WF(s) && Silent(s) && !e.EAnswer?
    ensures Silent(Step(s, e)) && PayloadOf(Step(s, e).trace) == PayloadOf(s.trace)
  {
    match e
    case EConnect(id, credentials) => LinkSilent(s, id, credentials);
    case EDisconnect => LinkSilent(s, "", false);
    case EAudioIn(audio) => AudioLog(s, Heard(audio));
    case EHangUp =>
      if s.conn.Some? {
        AudioLog(s, HangUpMsg(s.conn.value));
      }
    case ESendTick =>
      if s.sendTimer && s.conn.Some? && s.inCall {
        TickMeaning(s);
      }
    case EReconnectTimer => AddsNoAudio(s.trace, Step(s, e).trace);
    case EDeliver(c) => AddsNoAudio(s.trace, Step(s, e).trace);
    case _ =>
  }

  lemma {:induction false} SilentRun(s: State, es: seq<Event>)
    requires WF(s) && Silent(s) && NoAnswer(es)
    ensures PayloadOf(Run(s, es).trace) == PayloadOf(s.trace)
    decreases |es|
  {
    if es != [] {
      SilentStep(s, es[0]);
      SilentRun(Step(s, es[0]), es[1..]);
    }
  }

  /** Until the next answer, only audio heard since s is sent. */
  ghost predicate SendsOnlyNewAudio(s: State)
    requires WF(s)
  {
    forall es: seq<Event> :: NoAnswer(es) ==> SentWasHeard(s, Run(s, es))
  }

  ghost predicate SentWasHeard(s: State, r: State) {
    |s.trace| <= |r.trace| && PayloadOf(Since(s, r)) <= HeardOf(Since(s, r))
  }

  lemma {:induction false} NewAudioIff(s: State)
    requires WF(s) && Conserved(s) && s.conn.Some? && s.inCall
    ensures SendsOnlyNewAudio(s) <==> s.queued == [] || Silent(s)
  {
    if s.queued == [] || Silent(s) {
      forall es: seq<Event> | NoAnswer(es)
        ensures SentWasHeard(s, Run(s, es))
      {
        NewAudioOnly(s, es);
      }
    } else {
      var es := [ESendTick];
      TickMeaning(s);
      var r := OnSendAudioData(s);
      assert Run(s, es) == Run(Step(s, es[0]), es[1..]) == r;
      AudioBalance(s, es);
      assert Since(s, r) == [r.trace[|s.trace|]];
      assert !SentWasHeard(s, r);
    }
  }

  lemma {:induction false} NewAudioOnly(s: State, es: seq<Event>)
    requires WF(s) && Conserved(s) && NoAnswer(es) && (s.queued == [] || Silent(s))
    ensures SentWasHeard(s, Run(s, es))
  {
    var r := Run(s, es);
    AudioBalance(s, es);
    var d := Since(s, r);
    if Silent(s) {
      SilentRun(s, es);
      RunGrows(s, es);
      AudioConcat(s.trace, r.trace, |d|);
      assert PayloadOf(d) == [];
    } else {
      assert PayloadOf(d) + r.queued == HeardOf(d);
    }
  }

  /** A call answered now, with this format, would send frames with room for audio. */
  predicate WouldSend(s: State, format: Option<AudioFormat>) {
    if format.Some? then FrameBytes(format.value) > 0 else s.sendTimer && s.sendBytes > 0
  }

  /**
    A call ends; whatever comes before the next answer comes; the next call is answered. Then this call
    sends only audio that was given to it exactly when the earlier one ended with an empty queue (or
    when no payload will be sent at all).
  */
  lemma {:induction false} LeftoverAudioIff(
      attempts: seq<Attempt>, es: seq<Event>, idle: seq<Event>, format: Option<AudioFormat>)
    requires !Run(Init(attempts), es).inCall && NoAnswer(idle)
    requires Run(Run(Init(attempts), es), idle).conn.Some?
    ensures
      var ended := Run(Init(attempts), es);
      var waiting := Run(ended, idle);
      SendsOnlyNewAudio(Answer(waiting, format).0) <==> ended.queued == [] || !WouldSend(waiting, format)
  {
    var ended := Run(Init(attempts), es);
    var waiting := Run(ended, idle);
    AudioConservation(attempts, es);
    RunConserves(ended, idle);
    CallConserves(waiting, format);
    QueueWaits(ended, idle);
    NewAudioIff(Answer(waiting, format).0);
  }

  const L16 := Some(AudioFormat(16000, 16, 1))

  lemma {:induction false} RunFirst(s: State, e: Event, rest: seq<Event>)
    requires WF(s)
    ensures Run(s, [e] + rest) == Run(Step(s, e), rest)
  {
    assert ([e] + rest)[1..] == rest;
  }

  /** A byte is queued in a call that then ends; a new call has begun. */
  lemma {:induction false} LeftBehind(s: State, b: Byte)
    requires WF(s) && s.conn.Some? && s.queued == []
    ensures
      var c := s.conn.value;
      var r := Run(s, [EAnswer(L16), EAudioIn([b]), EHangUp, EAnswer(L16)]);
      && r.conn == s.conn && r.inCall && r.sendTimer && r.queued == [b] && r.sendBytes == 640
      && r.trace == s.trace + [AnswerMsg(c), Heard([b]), HangUpMsg(c), AnswerMsg(c)]
  {
    var s1 := Step(s, EAnswer(L16));
    var s2 := Step(s1, EAudioIn([b]));
    var s3 := Step(s2, EHangUp);
    RunFirst(s, EAnswer(L16), [EAudioIn([b]), EHangUp, EAnswer(L16)]);
    RunFirst(s1, EAudioIn([b]), [EHangUp, EAnswer(L16)]);
    RunFirst(s2, EHangUp, [EAnswer(L16)]);
    RunFirst(s3, EAnswer(L16), []);
    assert [EAnswer(L16)] + [] == [EAnswer(L16)];
    assert [EHangUp] + [EAnswer(L16)] == [EHangUp, EAnswer(L16)];
    assert [EAudioIn([b])] + [EHangUp, EAnswer(L16)] == [EAudioIn([b]), EHangUp, EAnswer(L16)];
    assert [EAnswer(L16)] + [EAudioIn([b]), EHangUp, EAnswer(L16)] ==
      [EAnswer(L16), EAudioIn([b]), EHangUp, EAnswer(L16)];
  }

  /** The first frame of the new call carries that byte, though nothing was given to the new call. */
  lemma {:induction false} LeftoverExample(s: State, b: Byte)
    requires WF(s) && s.conn.Some? && s.queued == []
    ensures
      var begun := Run(s, [EAnswer(L16), EAudioIn([b]), EHangUp, EAnswer(L16)]);
      Run(begun, [ESendTick]).trace == begun.trace + [Frame(s.conn.value, [b] + Zeros(639), 1)]
  {
    LeftBehind(s, b);
    var begun := Run(s, [EAnswer(L16), EAudioIn([b]), EHangUp, EAnswer(L16)]);
    assert [ESendTick] + [] == [ESendTick];
    RunFirst(begun, ESendTick, []);
    assert [b][..1] == [b];
    assert Step(begun, ESendTick) == OnSendAudioData(begun);
  }
}
