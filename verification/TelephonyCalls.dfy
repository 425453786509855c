/**
  What a user of the telephony service sees, told from the calls alone: which sessions and calls there
  are, what is said to the other side and which audio is taken. Reconnecting plays no part in it.
*/
module TelephonyCalls {
  import opened Basics
  import opened TelephonySpec
  import opened TelephonyAudio
  import opened TelephonyLeftover

  datatype Phase = Offline | Idle | Talking

  datatype Entry =
    | Opens(client: nat, id: string)
    | Closes(client: nat)
    | Answers(client: nat)
    | HangsUp(client: nat)
    | Hears(audio: Bytes)
    | Frames(client: nat, size: nat)

  /** sessions counts the sessions begun; the client of the current one is the latest. */
  datatype Book = Book(phase: Phase, sessions: nat, id: string, ticking: bool, size: nat, entries: seq<Entry>)

  const EMPTY_BOOK := Book(Offline, 0, "", false, 640, [])

  function Note(b: Book, phase: Phase, entry: Entry): Book {
    b.(phase := phase, entries := b.entries + [entry])
  }

  /** Hearing and sending need a call, a call needs a session, and a session needs credentials. */
  function Keep(b: Book, e: Event): Book {
    var client := if b.sessions > 0 then b.sessions - 1 else 0;
    match e
    case EConnect(id, credentials) =>
      if b.phase == Offline && credentials
      then Note(b, Idle, Opens(b.sessions, id)).(sessions := b.sessions + 1, id := id)
      else b
    case EDisconnect => if b.phase == Offline then b else Note(b, Offline, Closes(client))
    case EAnswer(format) => if b.phase == Offline then b else Started(Note(b, Talking, Answers(client)), format)
    case EHangUp => if b.phase == Offline then b else Note(b, Idle, HangsUp(client))
    case EHangUpMessage => if b.phase == Talking then b.(phase := Idle) else b
    case EAudioIn(audio) => if b.phase == Talking then Note(b, Talking, Hears(audio)) else b
    case ESendTick =>
      if !b.ticking then b
      else if b.phase == Talking then Note(b, Talking, Frames(client, b.size))
      else b.(ticking := false)
    case _ => b
  }

  /** 320 samples of every channel make a frame; an unsupported format starts nothing. */
  function Started(b: Book, format: Option<AudioFormat>): Book {
    match format
    case None => b
    case Some(f) => b.(ticking := true, size := (320 * (f.bps / 8) * f.channels) % 0x1_0000_0000)
  }

  function BookOf(b: Book, es: seq<Event>): Book
    decreases |es|
  {
    if es == [] then b else BookOf(Keep(b, es[0]), es[1..])
  }

  function AddEntry(entries: seq<Entry>, a: Act): seq<Entry> {
    match a
    case Opened(c, id) => entries + [Opens(c, id)]
    case UserClose(c) => entries + [Closes(c)]
    case AnswerMsg(c) => entries + [Answers(c)]
    case HangUpMsg(c) => entries + [HangsUp(c)]
    case Heard(audio) => entries + [Hears(audio)]
    case Frame(c, data, _) => entries + [Frames(c, |data|)]
    case _ => entries
  }

  /** The acts of a trace that have nothing to do with reconnecting. */
  function EntriesOf(t: seq<Act>): seq<Entry> {
    Fold(AddEntry, [], t)
  }

  ghost predicate Matches(s: State, b: Book) {
    && b.sessions == |s.clients|
    && s.conn == (if b.phase == Offline then None else Some(b.sessions - 1))
    && (b.phase != Offline ==> b.sessions > 0)
    && (s.inCall <==> b.phase == Talking)
    && (s.connected ==> b.phase != Offline)
    && s.selfId == b.id && s.sendTimer == b.ticking && s.sendBytes == b.size
    && EntriesOf(s.trace) == b.entries
  }

  lemma {:induction false} NoEntriesTo(t: seq<Act>, n: nat, m: nat)
    requires n <= m <= |t| && forall i :: n <= i < m ==> t[i].Sent? || t[i].Handshake? || t[i].ForcedClose?
    ensures FoldTo(AddEntry, [], t, m) == FoldTo(AddEntry, [], t, n)
    decreases m
  {
    if n < m {
      NoEntriesTo(t, n, m - 1);
    }
  }

  lemma {:induction false} QuietMatches(s: State, r: State, b: Book)
    requires Quiet(s, r) && Matches(s, b) && (r.connected ==> s.connected || s.conn.Some?)
    ensures Matches(r, b)
  {
    NoEntriesTo(r.trace, |s.trace|, |r.trace|);
    FoldToPrefix(AddEntry, [], s.trace, r.trace, |s.trace|);
  }

  lemma {:induction false} EntryLog(s: State, a: Act)
    ensures EntriesOf(Log(s, a).trace) == AddEntry(EntriesOf(s.trace), a)
  {
    FoldSnoc(AddEntry, [], s.trace, a);
  }

  lemma {:induction false} ConnectMatches(s: State, id: string, credentials: bool, b: Book)
    requires WF(s) && Matches(s, b)
    ensures Matches(Connect(s, id, credentials).0, Keep(b, EConnect(id, credentials)))
  {
    if s.conn.None? && credentials {
      var c := |s.clients|;
      var begun := s.(conn := Some(c), clients := s.clients + [Closed], selfId := id);
      EntryLog(begun, Opened(c, id));
      QuietMatches(Log(begun, Opened(c, id)), Connect(s, id, credentials).0, Keep(b, EConnect(id, credentials)));
    }
  }

  lemma {:induction false} DisconnectMatches(s: State, b: Book)
    requires WF(s) && Matches(s, b)
    ensures Matches(Disconnect(s).0, Keep(b, EDisconnect))
  {
    if s.conn.Some? {
      EntryLog(CloseClient(s, s.conn.value), UserClose(s.conn.value));
    }
  }

  lemma {:induction false} AnswerMatches(s: State, format: Option<AudioFormat>, b: Book)
    requires WF(s) && Matches(s, b)
    ensures Matches(Answer(s, format).0, Keep(b, EAnswer(format)))
  {
    if s.conn.Some? {
      EntryLog(s, AnswerMsg(s.conn.value));
    }
  }

  lemma {:induction false} HangUpMatches(s: State, b: Book)
    requires WF(s) && Matches(s, b)
    ensures Matches(HangUp(s).0, Keep(b, EHangUp))
  {
    if s.conn.Some? {
      EntryLog(s, HangUpMsg(s.conn.value));
    }
  }

  lemma {:induction false} AudioMatches(s: State, audio: Bytes, b: Book)
    requires WF(s) && Matches(s, b)
    ensures Matches(SendAudioIn(s, audio), Keep(b, EAudioIn(audio)))
  {
    EntryLog(s, Heard(audio));
  }

  lemma {:induction false} TickMatches(s: State, b: Book)
    requires WF(s) && Matches(s, b) && s.sendTimer
    ensures Matches(OnSendAudioData(s), Keep(b, ESendTick))
  {
    if s.conn.Some? && s.inCall {
      TickMeaning(s);
      var r := OnSendAudioData(s);
      FoldSnoc(AddEntry, [], s.trace, r.trace[|s.trace|]);
    }
  }

  lemma {:induction false} LinkMatches(s: State, e: Event, b: Book)
    requires WF(s) && Matches(s, b) && (e.EReconnectTimer? || e.EDeliver? || e.EClient?)
    ensures Matches(Step(s, e), b)
  {
    match e
    case EReconnectTimer =>
      if s.reconnect == Pending {
        QuietMatches(s.(reconnect := Fired), Step(s, e), b);
      }
    case EDeliver(c) =>
      if c in s.undelivered {
        QuietMatches(s.(undelivered := s.undelivered - multiset{c}), Step(s, e), b);
      }
    case EClient(c, st) =>
  }

  lemma {:induction false} StepMatches(s: State, e: Event, b: Book)
    requires WF(s) && Matches(s, b)
    ensures Matches(Step(s, e), Keep(b, e))
  {
    match e
    case EConnect(id, credentials) => ConnectMatches(s, id, credentials, b);
    case EDisconnect => DisconnectMatches(s, b);
    case EAnswer(format) => AnswerMatches(s, format, b);
    case EHangUp => HangUpMatches(s, b);
    case EHangUpMessage =>
    case EAudioIn(audio) => AudioMatches(s, audio, b);
    case ESendTick =>
      if s.sendTimer {
        TickMatches(s, b);
      }
    case EReconnectTimer => LinkMatches(s, e, b);
    case EClient(c, st) => LinkMatches(s, e, b);
    case EDeliver(c) => LinkMatches(s, e, b);
  }

  lemma {:induction false} RunMatches(s: State, es: seq<Event>, b: Book)
    requires WF(s) && Matches(s, b)
    ensures Matches(Run(s, es), BookOf(b, es))
    decreases |es|
  {
    if es != [] {
      StepMatches(s, es[0], b);
      RunMatches(Step(s, es[0]), es[1..], Keep(b, es[0]));
    }
  }

  /**
    However the link fares, the session, the call, the send timer and everything said and heard are as the
    calls alone determine them.
  */
  lemma CallHistory(attempts: seq<Attempt>, es: seq<Event>)
    ensures Matches(Run(Init(attempts), es), BookOf(EMPTY_BOOK, es))
  {
    RunMatches(Init(attempts), es, EMPTY_BOOK);
  }

  predicate Gains(b: Book, e: Event) {
    |Keep(b, e).entries| > |b.entries|
  }

  /** A call returns true exactly when it had an effect. */
  lemma {:induction false} ResultsTold(s: State, b: Book, id: string, credentials: bool, format: Option<AudioFormat>)
    requires WF(s) && Matches(s, b)
    ensures Connect(s, id, credentials).1 <==> Gains(b, EConnect(id, credentials))
    ensures Disconnect(s).1 <==> Gains(b, EDisconnect)
    ensures Answer(s, format).1 <==> Gains(b, EAnswer(format))
    ensures HangUp(s).1 <==> Gains(b, EHangUp)
  {
  }

  // ---------------------------------------------------------------- the end of a call

  predicate EndsCall(e: Event) {
    e.EHangUp? || e.EHangUpMessage? || e.EDisconnect?
  }

  /** t' is t followed by acts other than taking or sending audio. */
  ghost predicate NoAudio(t: seq<Act>, t': seq<Act>) {
    Extends(t, t') && forall i :: |t| <= i < |t'| ==> !t'[i].Frame? && !t'[i].Heard?
  }

  lemma {:induction false} ConnectNoAudio(s: State, id: string, credentials: bool)
    requires WF(s)
    ensures NoAudio(s.trace, Connect(s, id, credentials).0.trace)
  {
  }

  lemma {:induction false} IdleNoAudio(s: State, e: Event)
    requires WF(s) && !s.inCall && !e.EAnswer?
    ensures !Step(s, e).inCall && NoAudio(s.trace, Step(s, e).trace)
  {
    match e
    case EConnect(id, credentials) => ConnectNoAudio(s, id, credentials);
    case _ =>
  }

  lemma {:induction false} RunNoAudio(s: State, es: seq<Event>)
    requires WF(s) && !s.inCall && NoAnswer(es)
    ensures !Run(s, es).inCall && NoAudio(s.trace, Run(s, es).trace)
    decreases |es|
  {
    if es != [] {
      IdleNoAudio(s, es[0]);
      RunNoAudio(Step(s, es[0]), es[1..]);
      NoAudioChain(s.trace, Step(s, es[0]).trace, Run(s, es).trace);
    }
  }

  lemma NoAudioChain(t: seq<Act>, t': seq<Act>, t'': seq<Act>)
    requires NoAudio(t, t') && NoAudio(t', t'')
    ensures NoAudio(t, t'')
  {
    forall i | |t| <= i < |t''|
      ensures !t''[i].Frame? && !t''[i].Heard?
    {
      if i < |t'| {
        assert t''[i] == t'[i];
      }
    }
  }

  /**
    Hanging up, from either side, and disconnecting end the call: until the next answer no audio is taken
    and no frame is sent, and the next tick finds the send timer stopped or stops it.
  */
  lemma CallEnds(attempts: seq<Attempt>, es: seq<Event>, e: Event, more: seq<Event>)
    requires EndsCall(e) && NoAnswer(more)
    ensures
      var ended := Step(Run(Init(attempts), es), e);
      && NoAudio(ended.trace, Run(ended, more).trace)
      && !Step(Run(ended, more), ESendTick).sendTimer
  {
    var s := Run(Init(attempts), es);
    CallHistory(attempts, es);
    StepMatches(s, e, BookOf(EMPTY_BOOK, es));
    RunNoAudio(Step(s, e), more);
  }

  /** A frame lasts 320 samples: its bytes are to the bytes of one second as 320 is to the sample rate. */
  lemma FrameLasts(f: AudioFormat)
    requires 320 * (f.bps / 8) * f.channels < 0x1_0000_0000
    ensures FrameBytes(f) * f.freq == 320 * (f.freq * (f.bps / 8) * f.channels)
  {
    var b, c, r := f.bps / 8, f.channels, f.freq;
    assert FrameBytes(f) == 320 * b * c;
    assert 320 * b * c * r == 320 * (r * b * c) by {
      assert b * c * r == r * b * c;
    }
  }
}
