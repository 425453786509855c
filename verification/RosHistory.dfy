/**
  The wire and the handler calls of the ROS client, told from the events alone: which message goes out on
  which connection, and which handler is called with what.
*/
module RosHistory {
  import opened Basics
  import opened RosIds
  import opened RosSpec

  // ---------------------------------------------------------------- connections

  /** The service is active: the last client's Send() went through and it was not lost since. */
  function Active(sendOk: bool, es: seq<Event>, n: nat): bool
    requires n <= |es|
  {
    if n == 0 then sendOk
    else match es[n-1]
      case EClientLost => false
      case EReconnectTimer(ok) => Active(sendOk, es, n - 1) || ok
      case _ => Active(sendOk, es, n - 1)
  }

  /** How many clients there were so far: one at the start and one for each timer that found none active. */
  function Clients(sendOk: bool, es: seq<Event>, n: nat): nat
    requires n <= |es|
  {
    if n == 0 then 1
    else Clients(sendOk, es, n - 1) + (if es[n-1].EReconnectTimer? && !Active(sendOk, es, n - 1) then 1 else 0)
  }

  lemma {:induction false} StepLink(s: State, e: Event)
    ensures
      var r := Step(s, e);
      && (r.active <==> if e.EClientLost? then false else s.active || (e.EReconnectTimer? && e.sendOk))
      && r.conn == s.conn + (if e.EReconnectTimer? && !s.active then 1 else 0)
  {
  }

  lemma {:induction false} ConnectionHistory(sendOk: bool, es: seq<Event>, n: nat)
    requires n <= |es|
    ensures
      var s := RunTo(sendOk, es, n);
      s.active == Active(sendOk, es, n) && s.conn == Clients(sendOk, es, n)
  {
    if n > 0 {
      ConnectionHistory(sendOk, es, n - 1);
      StepLink(RunTo(sendOk, es, n - 1), es[n-1]);
    }
  }

  // ---------------------------------------------------------------- messages

  /** A message without its number; content is the message type or the data. */
  datatype Note = Note(op: string, conn: nat, topic: string, content: string, subId: string)

  function NoteOf(m: Msg): Note {
    match m
    case Advertised(conn, _, topic, kind) => Note("advertise", conn, topic, kind, "")
    case Published(conn, _, topic, data) => Note("publish", conn, topic, data, "")
    case Subscribed(conn, id, topic, kind) => Note("subscribe", conn, topic, kind, id)
    case Unsubscribed(conn, id, topic) => Note("unsubscribe", conn, topic, "", id)
  }

  function AddNote(notes: seq<Note>, m: Msg): seq<Note> {
    notes + [NoteOf(m)]
  }

  function NotesOf(wire: seq<Msg>): seq<Note> {
    Fold(AddNote, [], wire)
  }

  /** What an event says on a connection, if its topic is new, and if these subscribe to its topic. */
  function Say(e: Event, conn: nat, isNew: bool, subs: seq<Subscription>): seq<Note> {
    match e
    case EPublish(topic, kind, data) =>
      (if isNew then [Note("advertise", conn, topic, kind, "")] else []) + [Note("publish", conn, topic, data, "")]
    case EAdvertise(topic, kind) => if isNew then [Note("advertise", conn, topic, kind, "")] else []
    case ESubscribe(topic, kind, _, id) => [Note("subscribe", conn, topic, kind, id)]
    case EUnsubscribe(topic, owner) =>
      var sub := FirstBound(subs, topic, owner);
      if sub.Some? then [Note("unsubscribe", conn, topic, "", sub.value.id)] else []
    case _ => []
  }

  /** No earlier event publishes or advertises the topic. */
  predicate IsNew(es: seq<Event>, n: nat, topic: string)
    requires n <= |es|
  {
    forall i :: 0 <= i < n ==> !IsMention(es[i], topic)
  }

  function TopicOf(e: Event): string {
    match e
    case EPublish(topic, _, _) => topic
    case EAdvertise(topic, _) => topic
    case ESubscribe(topic, _, _, _) => topic
    case EUnsubscribe(topic, _) => topic
    case EFrame(topic, _) => topic
    case _ => ""
  }

  /** What the first n events say. */
  function SaidBy(sendOk: bool, es: seq<Event>, n: nat): seq<Note>
    requires n <= |es|
  {
    if n == 0 then []
    else
      var topic := TopicOf(es[n-1]);
      SaidBy(sendOk, es, n - 1) +
      Say(es[n-1], Clients(sendOk, es, n - 1), IsNew(es, n - 1, topic), TopicSubscriptions(es, n - 1, topic))
  }

  lemma {:induction false} AdvertiseSays(s: State, topic: string, kind: string)
    ensures NotesOf(Advertise(s, topic, kind).wire) == NotesOf(s.wire) + Say(
      EAdvertise(topic, kind), s.conn, topic !in s.advertisements, [])
  {
    if topic !in s.advertisements {
      FoldSnoc(AddNote, [], s.wire, Advertise(s, topic, kind).wire[|s.wire|]);
    }
  }

  lemma {:induction false} PublishSays(s: State, topic: string, kind: string, data: string)
    ensures NotesOf(Publish(s, topic, kind, data).wire) == NotesOf(s.wire) + Say(
      EPublish(topic, kind, data), s.conn, topic !in s.advertisements, [])
  {
    var a := Advertise(s, topic, kind);
    AdvertiseSays(s, topic, kind);
    FoldSnoc(AddNote, [], a.wire, Publish(s, topic, kind, data).wire[|a.wire|]);
  }

  lemma {:induction false} SubscribeSays(s: State, topic: string, kind: string, handler: Handler, id: string)
    ensures NotesOf(Subscribe(s, topic, kind, handler, id).wire) ==
      NotesOf(s.wire) + Say(ESubscribe(topic, kind, handler, id), s.conn, true, [])
  {
    FoldSnoc(AddNote, [], s.wire, Subscribe(s, topic, kind, handler, id).wire[|s.wire|]);
  }

  lemma {:induction false} UnsubscribeSays(s: State, topic: string, owner: nat)
    ensures NotesOf(Unsubscribe(s, topic, owner).wire) ==
      NotesOf(s.wire) + Say(EUnsubscribe(topic, owner), s.conn, true, ForTopic(s.subscriptions, topic))
  {
    FirstBoundForTopic(s.subscriptions, topic, owner);
    if FirstBound(s.subscriptions, topic, owner).Some? {
      FoldSnoc(AddNote, [], s.wire, Unsubscribe(s, topic, owner).wire[|s.wire|]);
    } else {
      assert s.wire + [] == s.wire;
    }
  }

  lemma {:induction false} StepSays(s: State, e: Event)
    ensures NotesOf(Step(s, e).wire) == NotesOf(s.wire) + Say(
      e, s.conn, TopicOf(e) !in s.advertisements, ForTopic(s.subscriptions, TopicOf(e)))
  {
    match e
    case EPublish(topic, kind, data) => PublishSays(s, topic, kind, data);
    case EAdvertise(topic, kind) => AdvertiseSays(s, topic, kind);
    case ESubscribe(topic, kind, handler, id) => SubscribeSays(s, topic, kind, handler, id);
    case EUnsubscribe(topic, owner) => UnsubscribeSays(s, topic, owner);
    case _ =>
  }

  lemma {:induction false} NewIff(es: seq<Event>, topic: string, n: nat)
    requires n <= |es|
    ensures IsNew(es, n, topic) <==> !Mentions(FoldTo(Mention, [], es, n), topic)
  {
    if n > 0 {
      NewIff(es, topic, n - 1);
      MentionStep(FoldTo(Mention, [], es, n - 1), es[n-1], topic);
      assert IsNew(es, n, topic) <==> IsNew(es, n - 1, topic) && !IsMention(es[n-1], topic);
    }
  }

  lemma MentionStep(adverts: seq<Advert>, e: Event, topic: string)
    ensures Mentions(Mention(adverts, e), topic) <==> Mentions(adverts, topic) || IsMention(e, topic)
  {
    var r := Mention(adverts, e);
    if Mentions(adverts, topic) {
      var i :| 0 <= i < |adverts| && adverts[i].topic == topic;
      assert r[i].topic == topic;
    } else if IsMention(e, topic) {
      assert r[|adverts|].topic == topic;
    }
  }

  lemma {:induction false} AdvertisedIff(sendOk: bool, es: seq<Event>, n: nat, topic: string)
    requires n <= |es|
    ensures topic !in RunTo(sendOk, es, n).advertisements <==> IsNew(es, n, topic)
  {
    RunAdvertInv(sendOk, es, n);
    NewIff(es, topic, n);
    MentionsIsIn(FoldTo(Mention, [], es, n), topic);
  }

  /** What the state knows of the past when event n comes. */
  ghost predicate Facts(sendOk: bool, es: seq<Event>, n: nat, s: State)
    requires n < |es|
  {
    var topic := TopicOf(es[n]);
    && s.conn == Clients(sendOk, es, n)
    && (topic !in s.advertisements <==> IsNew(es, n, topic))
    && ForTopic(s.subscriptions, topic) == TopicSubscriptions(es, n, topic)
  }

  lemma {:induction false} FactsHold(sendOk: bool, es: seq<Event>, n: nat)
    requires n < |es|
    ensures Facts(sendOk, es, n, RunTo(sendOk, es, n))
  {
    var topic := TopicOf(es[n]);
    ConnectionHistory(sendOk, es, n);
    AdvertisedIff(sendOk, es, n, topic);
    RunSubscriptions(sendOk, es, n, topic);
  }

  lemma {:induction false} NextSays(sendOk: bool, es: seq<Event>, n: nat, s: State)
    requires n < |es| && NotesOf(s.wire) == SaidBy(sendOk, es, n) && Facts(sendOk, es, n, s)
    ensures NotesOf(Step(s, es[n]).wire) == SaidBy(sendOk, es, n + 1)
  {
    StepSays(s, es[n]);
  }

  predicate WireTold(sendOk: bool, es: seq<Event>, n: nat, s: State) {
    n <= |es| && NotesOf(s.wire) == SaidBy(sendOk, es, n)
  }

  lemma {:induction false} NextTold(sendOk: bool, es: seq<Event>, n: nat)
    requires n < |es| && WireTold(sendOk, es, n, FoldTo(Step, Init(sendOk), es, n))
    ensures WireTold(sendOk, es, n + 1, FoldTo(Step, Init(sendOk), es, n + 1))
  {
    FactsHold(sendOk, es, n);
    NextSays(sendOk, es, n, RunTo(sendOk, es, n));
  }

  /** The wire carries what the events say, in order, each on the connection of its time. */
  lemma {:induction false} WireHistory(sendOk: bool, es: seq<Event>)
    ensures NotesOf(Run(sendOk, es).wire) == SaidBy(sendOk, es, |es|)
  {
    var p := (n: nat, s: State) => WireTold(sendOk, es, n, s);
    forall n: nat
      ensures StepHolds(Step, Init(sendOk), es, p, n)
    {
      if n < |es| && p(n, FoldTo(Step, Init(sendOk), es, n)) {
        NextTold(sendOk, es, n);
      }
    }
    FoldToInvariant(Step, Init(sendOk), es, p, |es|);
  }

  /** The publishes alone: topics and data as the callers gave them. */
  function AddPublish(ps: seq<(string, string)>, m: Msg): seq<(string, string)> {
    if m.Published? then ps + [(m.topic, m.data)] else ps
  }

  function AddAsked(ps: seq<(string, string)>, e: Event): seq<(string, string)> {
    if e.EPublish? then ps + [(e.topic, e.data)] else ps
  }

  lemma {:induction false} StepPublishes(s: State, e: Event)
    ensures Fold(AddPublish, [], Step(s, e).wire) == AddAsked(Fold(AddPublish, [], s.wire), e)
  {
    match e
    case EPublish(topic, kind, data) =>
      var a := Advertise(s, topic, kind);
      AdvertisePublishes(s, topic, kind);
      FoldSnoc(AddPublish, [], a.wire, Publish(s, topic, kind, data).wire[|a.wire|]);
    case EAdvertise(topic, kind) => AdvertisePublishes(s, topic, kind);
    case ESubscribe(topic, kind, handler, id) =>
      FoldSnoc(AddPublish, [], s.wire, Subscribed(s.conn, id, topic, kind));
    case EUnsubscribe(topic, owner) =>
      var sub := FirstBound(s.subscriptions, topic, owner);
      if sub.Some? {
        FoldSnoc(AddPublish, [], s.wire, Unsubscribed(s.conn, sub.value.id, topic));
      } else {
        assert s.wire + [] == s.wire;
      }
    case _ =>
  }

  lemma {:induction false} AdvertisePublishes(s: State, topic: string, kind: string)
    ensures Fold(AddPublish, [], Advertise(s, topic, kind).wire) == Fold(AddPublish, [], s.wire)
  {
    if topic !in s.advertisements {
      FoldSnoc(AddPublish, [], s.wire, Advertise(s, topic, kind).wire[|s.wire|]);
    }
  }

  lemma {:induction false} PublishesTo(sendOk: bool, es: seq<Event>, n: nat)
    requires n <= |es|
    ensures Fold(AddPublish, [], RunTo(sendOk, es, n).wire) == FoldTo(AddAsked, [], es, n)
  {
    if n > 0 {
      PublishesTo(sendOk, es, n - 1);
      StepPublishes(RunTo(sendOk, es, n - 1), es[n-1]);
    }
  }

  /** What is published is what the callers published: every topic with its data, in order. */
  lemma PublishesAsAsked(sendOk: bool, es: seq<Event>)
    ensures Fold(AddPublish, [], Run(sendOk, es).wire) == Fold(AddAsked, [], es)
  {
    PublishesTo(sendOk, es, |es|);
  }

  // ---------------------------------------------------------------- message numbers

  function AddNumbered(ms: seq<Msg>, m: Msg): seq<Msg> {
    if m.Advertised? || m.Published? then ms + [m] else ms
  }

  /** The operation, the topic as C prints it, and the number. */
  function Spell(m: Msg, number: int): string {
    (if m.Advertised? then "advertise: " else "publish: ") + CString(m.topic) + ": " + Print(number)
  }

  ghost predicate Spelled(ms: seq<Msg>) {
    forall i :: 0 <= i < |ms| ==> ms[i].id == Spell(ms[i], Wrap(i + 1))
  }

  ghost predicate SpelledInv(s: State) {
    var ms := Fold(AddNumbered, [], s.wire);
    Spelled(ms) && s.counter == Wrap(|ms|)
  }

  lemma {:induction false} SpelledSnoc(wire: seq<Msg>, m: Msg)
    requires Spelled(Fold(AddNumbered, [], wire)) && (m.Advertised? || m.Published?)
    requires m.id == Spell(m, Increment(Wrap(|Fold(AddNumbered, [], wire)|)))
    ensures
      var ms, r := Fold(AddNumbered, [], wire), Fold(AddNumbered, [], wire + [m]);
      Spelled(r) && |r| == |ms| + 1 && Wrap(|r|) == Increment(Wrap(|ms|))
  {
    var ms := Fold(AddNumbered, [], wire);
    FoldSnoc(AddNumbered, [], wire, m);
    WrapIncrement(|ms|);
    SpelledNext(ms, m, Wrap(|ms| + 1));
  }

  lemma {:induction false} SpelledNext(ms: seq<Msg>, m: Msg, number: int)
    requires Spelled(ms) && number == Wrap(|ms| + 1) && m.id == Spell(m, number)
    ensures Spelled(ms + [m])
  {
    var r := ms + [m];
    forall i | 0 <= i < |r|
      ensures r[i].id == Spell(r[i], Wrap(i + 1))
    {
      assert i < |ms| ==> r[i] == ms[i];
    }
  }

  lemma {:induction false} AdvertiseSpelled(s: State, topic: string, kind: string)
    requires SpelledInv(s)
    ensures SpelledInv(Advertise(s, topic, kind))
  {
    if topic !in s.advertisements {
      var n := Increment(s.counter);
      var m := Advertised(s.conn, MakeId("advertise", topic, n), topic, kind);
      assert m.id == Spell(m, n);
      SpelledSnoc(s.wire, m);
    }
  }

  lemma {:induction false} PublishSpelled(s: State, topic: string, kind: string, data: string)
    requires SpelledInv(s)
    ensures SpelledInv(Publish(s, topic, kind, data))
  {
    AdvertiseSpelled(s, topic, kind);
    var a := Advertise(s, topic, kind);
    var n := Increment(a.counter);
    var m := Published(a.conn, MakeId("publish", topic, n), topic, data);
    assert m.id == Spell(m, n);
    SpelledSnoc(a.wire, m);
  }

  lemma {:induction false} StepSpelled(s: State, e: Event)
    requires SpelledInv(s)
    ensures SpelledInv(Step(s, e))
  {
    match e
    case EPublish(topic, kind, data) => PublishSpelled(s, topic, kind, data);
    case EAdvertise(topic, kind) => AdvertiseSpelled(s, topic, kind);
    case ESubscribe(topic, kind, handler, id) =>
      FoldSnoc(AddNumbered, [], s.wire, Subscribed(s.conn, id, topic, kind));
    case EUnsubscribe(topic, owner) =>
      var sub := FirstBound(s.subscriptions, topic, owner);
      if sub.Some? {
        FoldSnoc(AddNumbered, [], s.wire, Unsubscribed(s.conn, sub.value.id, topic));
      } else {
        assert s.wire + [] == s.wire;
      }
    case _ =>
  }

  /** Message number i is labelled with its own operation, its own topic and the number i + 1. */
  lemma IdsSpelled(sendOk: bool, es: seq<Event>)
    ensures Spelled(Fold(AddNumbered, [], Run(sendOk, es).wire))
  {
    forall s, e | SpelledInv(s)
      ensures SpelledInv(Step(s, e))
    {
      StepSpelled(s, e);
    }
    assert RunTo(sendOk, es, 0) == Init(sendOk);
    FoldToKeeps(Step, Init(sendOk), es, SpelledInv, 0, |es|);
  }

  // ---------------------------------------------------------------- handler calls

  /** A frame calls each handler subscribed to its topic with its data; nothing else calls a handler. */
  function CalledBy(es: seq<Event>, n: nat): seq<Call>
    requires n <= |es|
  {
    if n == 0 then []
    else match es[n-1]
      case EFrame(topic, data) =>
        var subs := TopicSubscriptions(es, n - 1, topic);
        CalledBy(es, n - 1) + seq(|subs|, i requires 0 <= i < |subs| => Call(subs[i].handler, data))
      case _ => CalledBy(es, n - 1)
  }

  lemma {:induction false} StepCalls(s: State, e: Event)
    ensures !e.EFrame? ==> Step(s, e).calls == s.calls
    ensures e.EFrame? ==>
      var subs := ForTopic(s.subscriptions, e.topic);
      Step(s, e).calls == s.calls + seq(|subs|, i requires 0 <= i < |subs| => Call(subs[i].handler, e.data))
  {
  }

  predicate CallsTold(es: seq<Event>, n: nat, s: State) {
    n <= |es| && s.calls == CalledBy(es, n)
  }

  lemma {:induction false} NextCalls(sendOk: bool, es: seq<Event>, n: nat)
    requires n < |es| && CallsTold(es, n, FoldTo(Step, Init(sendOk), es, n))
    ensures CallsTold(es, n + 1, FoldTo(Step, Init(sendOk), es, n + 1))
  {
    StepCalls(RunTo(sendOk, es, n), es[n]);
    RunSubscriptions(sendOk, es, n, TopicOf(es[n]));
  }

  lemma {:induction false} CallHistory(sendOk: bool, es: seq<Event>)
    ensures Run(sendOk, es).calls == CalledBy(es, |es|)
  {
    var p := (n: nat, s: State) => CallsTold(es, n, s);
    forall n: nat
      ensures StepHolds(Step, Init(sendOk), es, p, n)
    {
      if n < |es| && p(n, FoldTo(Step, Init(sendOk), es, n)) {
        NextCalls(sendOk, es, n);
      }
    }
    FoldToInvariant(Step, Init(sendOk), es, p, |es|);
  }
}
