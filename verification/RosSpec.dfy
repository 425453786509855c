/**
  The ROS bridge client (platform/ros/RosPlatform.cpp) as a transition system on values, and what holds
  of its wire trace over every run. The subscriptions are a plain list here, in subscription order.
*/
module RosSpec {
  import opened Basics
  import opened RosIds

  /** A delegate: the object it is bound to and the member function it calls. */
  datatype Handler = Handler(owner: nat, member: nat)

  datatype Subscription = Subscription(handler: Handler, topic: string, id: string)

  datatype Msg =
    | Advertised(conn: nat, id: string, topic: string, kind: string)
    | Published(conn: nat, id: string, topic: string, data: string)
    | Subscribed(conn: nat, id: string, topic: string, kind: string)
    | Unsubscribed(conn: nat, id: string, topic: string)

  datatype Call = Call(handler: Handler, data: string)

  datatype State = State(
    counter: int,                     // 32 bits, wraps around
    idMap: seq<string>,
    advertisements: seq<string>,
    subscriptions: seq<Subscription>,
    conn: nat,                        // m_spWebClient: how many clients were created
    active: bool,
    wire: seq<Msg>,
    calls: seq<Call>)                 // handlers invoked

  function Init(sendOk: bool): State {
    ConnectToRobot(State(0, [], [], [], 0, false, [], []), sendOk)
  }

  function ConnectToRobot(s: State, sendOk: bool): State {
    if s.active then s else s.(conn := s.conn + 1, active := sendOk)
  }

  function OnClientLost(s: State): State {
    s.(active := false)
  }

  function Advertise(s: State, topic: string, kind: string): State {
    if topic in s.advertisements then s
    else
      var n := Increment(s.counter);
      var id := MakeId("advertise", topic, n);
      s.(counter := n, idMap := s.idMap + [id], advertisements := s.advertisements + [topic],
         wire := s.wire + [Advertised(s.conn, id, topic, kind)])
  }

  function Publish(s: State, topic: string, kind: string, data: string): State {
    var a := Advertise(s, topic, kind);
    var n := Increment(a.counter);
    var id := MakeId("publish", topic, n);
    a.(counter := n, idMap := a.idMap + [id], wire := a.wire + [Published(a.conn, id, topic, data)])
  }

  function Subscribe(s: State, topic: string, kind: string, handler: Handler, id: string): State {
    s.(subscriptions := s.subscriptions + [Subscription(handler, topic, id)],
       wire := s.wire + [Subscribed(s.conn, id, topic, kind)])
  }

  function ForTopic(subs: seq<Subscription>, topic: string): seq<Subscription> {
    if subs == [] then []
    else (if subs[0].topic == topic then [subs[0]] else []) + ForTopic(subs[1..], topic)
  }

  /** The first entry of the topic bound to the object. */
  function FirstBound(list: seq<Subscription>, topic: string, owner: nat): Option<Subscription> {
    if list == [] then None
    else if Bound(list[0], topic, owner) then Some(list[0])
    else FirstBound(list[1..], topic, owner)
  }

  predicate Bound(sub: Subscription, topic: string, owner: nat) {
    sub.topic == topic && sub.handler.owner == owner
  }

  /** The list without the first entry of the topic bound to the object. */
  function RemoveFirst(list: seq<Subscription>, topic: string, owner: nat): seq<Subscription> {
    if list == [] then []
    else if Bound(list[0], topic, owner) then list[1..]
    else [list[0]] + RemoveFirst(list[1..], topic, owner)
  }

  /** What Unsubscribe() is meant to do: drop the first entry of the topic bound to the object, and say so. */
  function Unsubscribe(s: State, topic: string, owner: nat): State {
    var sub := FirstBound(s.subscriptions, topic, owner);
    s.(subscriptions := RemoveFirst(s.subscriptions, topic, owner),
       wire := s.wire + (if sub.Some? then [Unsubscribed(s.conn, sub.value.id, topic)] else []))
  }

  function CallAll(subs: seq<Subscription>, data: string): (calls: seq<Call>)
    ensures |calls| == |subs|
  {
    seq(|subs|, i requires 0 <= i < |subs| => Call(subs[i].handler, data))
  }

  function OnTopicFrame(s: State, topic: string, data: string): State {
    s.(calls := s.calls + CallAll(ForTopic(s.subscriptions, topic), data))
  }

  // ---------------------------------------------------------------- whole runs

  // Unsubscription is the intended one; the one in the code changes nothing where it is defined.

  datatype Event =
    | EPublish(topic: string, kind: string, data: string)
    | EAdvertise(topic: string, kind: string)
    | ESubscribe(topic: string, kind: string, handler: Handler, id: string)
    | EUnsubscribe(topic: string, owner: nat)
    | EFrame(topic: string, data: string)
    | EReconnectTimer(sendOk: bool)
    | EClientLost

  function Step(s: State, e: Event): State {
    match e
    case EPublish(topic, kind, data) => Publish(s, topic, kind, data)
    case EAdvertise(topic, kind) => Advertise(s, topic, kind)
    case ESubscribe(topic, kind, handler, id) => Subscribe(s, topic, kind, handler, id)
    case EUnsubscribe(topic, owner) => Unsubscribe(s, topic, owner)
    case EFrame(topic, data) => OnTopicFrame(s, topic, data)
    case EReconnectTimer(sendOk) => ConnectToRobot(s, sendOk)
    case EClientLost => OnClientLost(s)
  }

  /** The state after the first n events. */
  function RunTo(sendOk: bool, es: seq<Event>, n: nat): State
    requires n <= |es|
  {
    FoldTo(Step, Init(sendOk), es, n)
  }

  function Run(sendOk: bool, es: seq<Event>): State {
    RunTo(sendOk, es, |es|)
  }

  // ---------------------------------------------------------------- ids

  function AddId(ids: seq<string>, m: Msg): seq<string> {
    ids + (if m.Advertised? || m.Published? then [m.id] else [])
  }

  /** The ids of the advertise and publish messages of a wire trace. */
  function WireIds(wire: seq<Msg>): seq<string> {
    Fold(AddId, [], wire)
  }

  /** The i-th id ends in the counter after i + 1 increments. */
  ghost predicate Numbered(ids: seq<string>) {
    forall i :: 0 <= i < |ids| ==> LastWord(ids[i]) == Print(Wrap(i + 1))
  }

  ghost predicate IdInv(s: State) {
    s.counter == Wrap(|s.idMap|) && WireIds(s.wire) == s.idMap && Numbered(s.idMap)
  }

  lemma NextId(ids: seq<string>, kind: string, topic: string)
    requires Numbered(ids)
    ensures Numbered(ids + [MakeId(kind, topic, Increment(Wrap(|ids|)))])
    ensures Wrap(|ids| + 1) == Increment(Wrap(|ids|))
  {
    WrapIncrement(|ids|);
    IdEndsInNumber(kind, topic, Wrap(|ids| + 1));
    NumberedSnoc(ids, MakeId(kind, topic, Wrap(|ids| + 1)));
  }

  lemma NumberedSnoc(ids: seq<string>, id: string)
    requires Numbered(ids) && LastWord(id) == Print(Wrap(|ids| + 1))
    ensures Numbered(ids + [id])
  {
  }

  lemma AdvertiseKeepsIds(s: State, topic: string, kind: string)
    requires IdInv(s)
    ensures IdInv(Advertise(s, topic, kind))
  {
    NextId(s.idMap, "advertise", topic);
    FoldSnoc(AddId, [], s.wire, Advertised(s.conn, MakeId("advertise", topic, Increment(s.counter)), topic, kind));
  }

  lemma PublishKeepsIds(s: State, topic: string, kind: string, data: string)
    requires IdInv(s)
    ensures IdInv(Publish(s, topic, kind, data))
  {
    AdvertiseKeepsIds(s, topic, kind);
    var a := Advertise(s, topic, kind);
    NextId(a.idMap, "publish", topic);
    FoldSnoc(AddId, [], a.wire, Published(a.conn, MakeId("publish", topic, Increment(a.counter)), topic, data));
  }

  lemma UnsubscribeKeepsIds(s: State, topic: string, owner: nat)
    requires IdInv(s)
    ensures IdInv(Unsubscribe(s, topic, owner))
  {
    var sub := FirstBound(s.subscriptions, topic, owner);
    if sub.Some? {
      FoldSnoc(AddId, [], s.wire, Unsubscribed(s.conn, sub.value.id, topic));
    } else {
      assert s.wire + [] == s.wire;
    }
  }

  lemma {:induction false} RunKeepsIds(sendOk: bool, es: seq<Event>, n: nat)
    requires n <= |es|
    ensures IdInv(RunTo(sendOk, es, n))
  {
    if n > 0 {
      RunKeepsIds(sendOk, es, n - 1);
      var s := RunTo(sendOk, es, n - 1);
      match es[n-1]
      case EAdvertise(topic, kind) => AdvertiseKeepsIds(s, topic, kind);
      case EPublish(topic, kind, data) => PublishKeepsIds(s, topic, kind, data);
      case ESubscribe(topic, kind, handler, id) =>
        FoldSnoc(AddId, [], s.wire, Subscribed(s.conn, id, topic, kind));
      case EUnsubscribe(topic, owner) => UnsubscribeKeepsIds(s, topic, owner);
      case _ =>
    }
  }

  lemma NumberedRepeat(ids: seq<string>, i: nat, j: nat)
    requires Numbered(ids) && i < j < |ids| && ids[i] == ids[j]
    ensures (j - i) % INT_RANGE == 0
  {
    PrintInjective(Wrap(i + 1), Wrap(j + 1));
    WrapRepeatsIff(i + 1, j + 1);
  }

  ghost predicate Distinct(ids: seq<string>) {
    forall i, j :: 0 <= i < j < |ids| ==> ids[i] != ids[j]
  }

  /** Equal ids are a multiple of 2^32 apart. */
  ghost predicate RepeatsFarApart(ids: seq<string>) {
    forall i, j :: 0 <= i < j < |ids| && ids[i] == ids[j] ==> (j - i) % INT_RANGE == 0
  }

  lemma NumberedRepeats(ids: seq<string>)
    requires Numbered(ids)
    ensures RepeatsFarApart(ids)
  {
    forall i, j | 0 <= i < j < |ids| && ids[i] == ids[j]
      ensures (j - i) % INT_RANGE == 0
    {
      NumberedRepeat(ids, i, j);
    }
  }

  lemma NumberedDistinct(ids: seq<string>)
    requires Numbered(ids) && |ids| <= INT_RANGE
    ensures Distinct(ids)
  {
    forall i, j | 0 <= i < j < |ids|
      ensures ids[i] != ids[j]
    {
      if ids[i] == ids[j] {
        NumberedRepeat(ids, i, j);
      }
    }
  }

  ghost predicate IdFacts(s: State) {
    && s.counter == Wrap(|s.idMap|) && WireIds(s.wire) == s.idMap
    && (|s.idMap| <= INT_MAX ==> s.counter == |s.idMap|)
    && RepeatsFarApart(s.idMap)
    && (|s.idMap| <= INT_RANGE ==> Distinct(s.idMap))
  }

  lemma IdFactsHold(s: State)
    requires IdInv(s)
    ensures IdFacts(s)
  {
    NumberedRepeats(s.idMap);
    if |s.idMap| <= INT_RANGE {
      NumberedDistinct(s.idMap);
    }
  }

  /**
    In every run the ids of all advertise and publish messages are m_IdMap in order; the counter is its
    length, wrapped around; ids can only be equal as strings a multiple of 2^32 messages apart.
  */
  lemma IdsDistinct(sendOk: bool, es: seq<Event>)
    ensures IdFacts(Run(sendOk, es))
  {
    RunKeepsIds(sendOk, es, |es|);
    IdFactsHold(Run(sendOk, es));
  }

  ghost predicate AllDistinctUpTo(most: nat) {
    forall sendOk, es :: |Run(sendOk, es).idMap| <= most ==> Distinct(Run(sendOk, es).idMap)
  }

  /** Runs with no more than this many messages have distinct ids exactly up to 2^32 messages. */
  lemma IdsDistinctIff(most: nat)
    ensures AllDistinctUpTo(most) <==> most <= INT_RANGE
  {
    if most <= INT_RANGE {
      forall sendOk, es | |Run(sendOk, es).idMap| <= most
        ensures Distinct(Run(sendOk, es).idMap)
      {
        IdsDistinct(sendOk, es);
      }
    } else {
      var es := ManyMessages();
      IdsCollide();
      assert !Distinct(Run(true, es).idMap);
    }
  }

  /** 2^32 - 1 publishes of one topic, and then an advertise of a topic that prints the same. */
  function ManyMessages(): seq<Event> {
    seq(INT_RANGE - 1, i => EPublish("a", "", "")) + [EAdvertise("a\0b", "")]
  }

  lemma {:induction false} ManyPublishes(n: nat)
    requires 0 < n < INT_RANGE
    ensures AfterPublishes(RunTo(true, ManyMessages(), n), n + 1)
  {
    assert ManyMessages()[n-1] == EPublish("a", "", "");
    if n == 1 {
      assert RunTo(true, ManyMessages(), 0) == Init(true);
      FirstPublish();
    } else {
      ManyPublishes(n - 1);
      PublishAgain(RunTo(true, ManyMessages(), n - 1), n);
    }
  }

  ghost predicate AfterPublishes(s: State, n: nat) {
    s.advertisements == ["a"] && |s.idMap| == n > 0 && s.idMap[0] == MakeId("advertise", "a", 1)
  }

  lemma FirstPublish()
    ensures AfterPublishes(Step(Init(true), EPublish("a", "", "")), 2)
  {
  }

  lemma PublishAgain(s: State, n: nat)
    requires AfterPublishes(s, n)
    ensures AfterPublishes(Step(s, EPublish("a", "", "")), n + 1)
  {
  }

  lemma LastAdvertise(s: State)
    requires AfterPublishes(s, INT_RANGE) && s.counter == Wrap(INT_RANGE)
    ensures
      var ids := Step(s, EAdvertise("a\0b", "")).idMap;
      |ids| == INT_RANGE + 1 && ids[0] == ids[INT_RANGE]
  {
    assert CString("a") == "a" && CString("a\0b") == "a" by {
      assert "a"[1..] == [] && "a\0b"[1..][0] == '\0';
    }
    assert Increment(Wrap(INT_RANGE)) == 1;
    assert "a\0b" != "a";
  }

  lemma IdsCollide()
    ensures
      var ids := Run(true, ManyMessages()).idMap;
      |ids| == INT_RANGE + 1 && ids[0] == ids[INT_RANGE]
  {
    var n := INT_RANGE - 1;
    ManyPublishes(n);
    RunKeepsIds(true, ManyMessages(), n);
    LastAdvertise(RunTo(true, ManyMessages(), n));
    assert Run(true, ManyMessages()) == Step(RunTo(true, ManyMessages(), n), ManyMessages()[n]);
  }

  // ---------------------------------------------------------------- advertisements

  /** A topic and the message type it was advertised with. */
  datatype Advert = Advert(topic: string, kind: string)

  function AddAdvert(adverts: seq<Advert>, m: Msg): seq<Advert> {
    adverts + (if m.Advertised? then [Advert(m.topic, m.kind)] else [])
  }

  function AdvertsOf(wire: seq<Msg>): seq<Advert> {
    Fold(AddAdvert, [], wire)
  }

  predicate Mentions(adverts: seq<Advert>, topic: string) {
    exists i :: 0 <= i < |adverts| && adverts[i].topic == topic
  }

  function Mention(adverts: seq<Advert>, e: Event): seq<Advert> {
    if (e.EPublish? || e.EAdvertise?) && !Mentions(adverts, e.topic)
    then adverts + [Advert(e.topic, e.kind)]
    else adverts
  }

  /** The topics of the published and advertised events, each with the type of its first mention. */
  function FirstMentions(es: seq<Event>): seq<Advert> {
    Fold(Mention, [], es)
  }

  function TopicsOf(adverts: seq<Advert>): (topics: seq<string>)
    ensures |topics| == |adverts|
  {
    seq(|adverts|, i requires 0 <= i < |adverts| => adverts[i].topic)
  }

  ghost predicate NoDuplicates(topics: seq<string>) {
    forall i, j :: 0 <= i < j < |topics| ==> topics[i] != topics[j]
  }

  /** Position j advertises this topic. */
  predicate AdvertisesAt(wire: seq<Msg>, j: nat, topic: string) {
    j < |wire| && wire[j].Advertised? && wire[j].topic == topic
  }

  ghost predicate AdvertisedIn(wire: seq<Msg>, topic: string) {
    exists j: nat :: AdvertisesAt(wire, j, topic)
  }

  /** Each publish comes after an advertise of its topic, and no topic is advertised twice. */
  ghost predicate AdvertisedOnce(wire: seq<Msg>) {
    && (forall i :: 0 <= i < |wire| && wire[i].Published? ==>
          exists j :: 0 <= j < i && AdvertisesAt(wire, j, wire[i].topic))
    && (forall j, k, topic :: 0 <= j < k && AdvertisesAt(wire, j, topic) ==> !AdvertisesAt(wire, k, topic))
  }

  ghost predicate AdvertInv(s: State, mentions: seq<Advert>) {
    && AdvertsOf(s.wire) == mentions
    && s.advertisements == TopicsOf(mentions)
    && NoDuplicates(s.advertisements)
    && AdvertisedOnce(s.wire)
    && (forall topic :: topic in s.advertisements <==> AdvertisedIn(s.wire, topic))
  }

  lemma MentionsIsIn(adverts: seq<Advert>, topic: string)
    ensures Mentions(adverts, topic) <==> topic in TopicsOf(adverts)
  {
    if Mentions(adverts, topic) {
      var i :| 0 <= i < |adverts| && adverts[i].topic == topic;
      assert TopicsOf(adverts)[i] == topic;
    }
  }

  /** What a message other than an advertise, on a topic already advertised, leaves as it is. */
  lemma SendKeepsOnce(wire: seq<Msg>, m: Msg)
    requires AdvertisedOnce(wire) && !m.Advertised?
    requires m.Published? ==> AdvertisedIn(wire, m.topic)
    ensures AdvertisedOnce(wire + [m]) && AdvertsOf(wire + [m]) == AdvertsOf(wire)
    ensures forall topic :: AdvertisedIn(wire + [m], topic) <==> AdvertisedIn(wire, topic)
  {
    FoldSnoc(AddAdvert, [], wire, m);
    var w := wire + [m];
    assert forall j: nat, topic :: AdvertisesAt(w, j, topic) <==> AdvertisesAt(wire, j, topic);
    forall topic
      ensures AdvertisedIn(w, topic) <==> AdvertisedIn(wire, topic)
    {
      if AdvertisedIn(wire, topic) {
        var j: nat :| AdvertisesAt(wire, j, topic);
        assert AdvertisesAt(w, j, topic);
      }
    }
    forall i | 0 <= i < |w| && w[i].Published?
      ensures exists j :: 0 <= j < i && AdvertisesAt(w, j, w[i].topic)
    {
      if i < |wire| {
        var j :| 0 <= j < i && AdvertisesAt(wire, j, wire[i].topic);
        assert AdvertisesAt(w, j, w[i].topic);
      } else {
        var j: nat :| AdvertisesAt(wire, j, m.topic);
        assert AdvertisesAt(w, j, w[i].topic);
      }
    }
  }

  lemma AdvertiseInv(s: State, mentions: seq<Advert>, e: Event)
    requires AdvertInv(s, mentions) && (e.EPublish? || e.EAdvertise?)
    ensures AdvertInv(Advertise(s, e.topic, e.kind), Mention(mentions, e))
    ensures e.topic in Advertise(s, e.topic, e.kind).advertisements
  {
    MentionsIsIn(mentions, e.topic);
    if e.topic !in s.advertisements {
      var r := Advertise(s, e.topic, e.kind);
      FoldSnoc(AddAdvert, [], s.wire, r.wire[|s.wire|]);
      assert r.advertisements == TopicsOf(Mention(mentions, e));
      NewAdvert(s.wire, r.wire[|s.wire|]);
      assert forall topic :: topic in r.advertisements <==> topic in s.advertisements || topic == e.topic;
    }
  }

  /** Sending the first advertise of a topic. */
  lemma NewAdvert(wire: seq<Msg>, m: Msg)
    requires AdvertisedOnce(wire) && m.Advertised? && !AdvertisedIn(wire, m.topic)
    ensures AdvertisedOnce(wire + [m])
    ensures forall topic :: AdvertisedIn(wire + [m], topic) <==> topic == m.topic || AdvertisedIn(wire, topic)
  {
    var w := wire + [m];
    assert forall j: nat, topic ::
      AdvertisesAt(w, j, topic) <==> AdvertisesAt(wire, j, topic) || (j == |wire| && topic == m.topic);
    assert AdvertisesAt(w, |wire|, m.topic);
    forall i | 0 <= i < |w| && w[i].Published?
      ensures exists j :: 0 <= j < i && AdvertisesAt(w, j, w[i].topic)
    {
      var j :| 0 <= j < i && AdvertisesAt(wire, j, wire[i].topic);
      assert AdvertisesAt(w, j, w[i].topic);
    }
    forall topic
      ensures AdvertisedIn(w, topic) <==> topic == m.topic || AdvertisedIn(wire, topic)
    {
      if AdvertisedIn(wire, topic) {
        var j: nat :| AdvertisesAt(wire, j, topic);
        assert AdvertisesAt(w, j, topic);
      }
    }
  }

  lemma PublishInv(s: State, mentions: seq<Advert>, e: Event)
    requires AdvertInv(s, mentions) && e.EPublish?
    ensures AdvertInv(Publish(s, e.topic, e.kind, e.data), Mention(mentions, e))
  {
    AdvertiseInv(s, mentions, e);
    var a := Advertise(s, e.topic, e.kind);
    SendKeepsOnce(a.wire, Published(a.conn, MakeId("publish", e.topic, Increment(a.counter)), e.topic, e.data));
  }

  lemma OtherInv(s: State, mentions: seq<Advert>, e: Event)
    requires AdvertInv(s, mentions) && !e.EPublish? && !e.EAdvertise?
    ensures AdvertInv(Step(s, e), mentions)
  {
    if e.ESubscribe? {
      SendKeepsOnce(s.wire, Subscribed(s.conn, e.id, e.topic, e.kind));
    } else if e.EUnsubscribe? {
      var sub := FirstBound(s.subscriptions, e.topic, e.owner);
      if sub.Some? {
        SendKeepsOnce(s.wire, Unsubscribed(s.conn, sub.value.id, e.topic));
      } else {
        assert s.wire + [] == s.wire;
      }
    }
  }

  lemma {:induction false} RunAdvertInv(sendOk: bool, es: seq<Event>, n: nat)
    requires n <= |es|
    ensures AdvertInv(RunTo(sendOk, es, n), FoldTo(Mention, [], es, n))
  {
    if n > 0 {
      RunAdvertInv(sendOk, es, n - 1);
      var s, mentions, e := RunTo(sendOk, es, n - 1), FoldTo(Mention, [], es, n - 1), es[n-1];
      if e.EAdvertise? {
        AdvertiseInv(s, mentions, e);
      } else if e.EPublish? {
        PublishInv(s, mentions, e);
      } else {
        OtherInv(s, mentions, e);
      }
    }
  }

  /**
    In every run m_Advertisements is duplicate-free and lists the topics in order of first mention; the
    advertise messages are just these, each with the type of that first mention; and each publish comes
    after the one advertise of its topic.
  */
  lemma AdvertiseOncePerTopic(sendOk: bool, es: seq<Event>)
    ensures
      var s := Run(sendOk, es);
      && AdvertsOf(s.wire) == FirstMentions(es) && s.advertisements == TopicsOf(FirstMentions(es))
      && NoDuplicates(s.advertisements) && AdvertisedOnce(s.wire)
  {
    RunAdvertInv(sendOk, es, |es|);
  }

  predicate IsMention(e: Event, topic: string) {
    (e.EPublish? || e.EAdvertise?) && e.topic == topic
  }

  /** The first event from k on that mentions the topic, known to be no later than n. */
  function FirstMention(es: seq<Event>, topic: string, k: nat, n: nat): (m: nat)
    requires k <= n < |es| && IsMention(es[n], topic)
    ensures k <= m <= n && IsMention(es[m], topic)
    ensures forall i :: k <= i < m ==> !IsMention(es[i], topic)
    decreases n - k
  {
    if IsMention(es[k], topic) then k else FirstMention(es, topic, k + 1, n)
  }

  lemma {:induction false} NotMentionedYet(es: seq<Event>, topic: string, m: nat)
    requires m <= |es| && forall i :: 0 <= i < m ==> !IsMention(es[i], topic)
    ensures !Mentions(FoldTo(Mention, [], es, m), topic)
  {
    if m > 0 {
      NotMentionedYet(es, topic, m - 1);
    }
  }

  /** The topic is advertised on this connection. */
  ghost predicate AdvertisedOn(wire: seq<Msg>, topic: string, conn: nat) {
    exists j: nat :: AdvertisesAt(wire, j, topic) && wire[j].conn == conn
  }

  lemma StepGrowsWire(s: State, e: Event, topic: string, conn: nat)
    ensures |s.wire| <= |Step(s, e).wire| && Step(s, e).wire[..|s.wire|] == s.wire
    ensures AdvertisedOn(s.wire, topic, conn) ==> AdvertisedOn(Step(s, e).wire, topic, conn)
  {
    if AdvertisedOn(s.wire, topic, conn) {
      var j: nat :| AdvertisesAt(s.wire, j, topic) && s.wire[j].conn == conn;
      assert AdvertisesAt(Step(s, e).wire, j, topic) && Step(s, e).wire[j] == s.wire[j];
    }
  }

  lemma AdvertisesNewTopic(s: State, e: Event)
    requires (e.EPublish? || e.EAdvertise?) && e.topic !in s.advertisements
    ensures AdvertisedOn(Step(s, e).wire, e.topic, s.conn)
  {
    var a := Advertise(s, e.topic, e.kind);
    assert Step(s, e).wire[..|a.wire|] == a.wire;
    assert AdvertisesAt(Step(s, e).wire, |s.wire|, e.topic) && Step(s, e).wire[|s.wire|].conn == s.conn;
  }

  lemma StaysAdvertised(sendOk: bool, es: seq<Event>, topic: string, conn: nat, m: nat, n: nat)
    requires m <= n <= |es| && AdvertisedOn(RunTo(sendOk, es, m).wire, topic, conn)
    ensures AdvertisedOn(RunTo(sendOk, es, n).wire, topic, conn)
  {
    forall s: State, e: Event
      ensures AdvertisedOn(s.wire, topic, conn) ==> AdvertisedOn(Step(s, e).wire, topic, conn)
    {
      StepGrowsWire(s, e, topic, conn);
    }
    FoldToKeeps(Step, Init(sendOk), es, (s: State) => AdvertisedOn(s.wire, topic, conn), m, n);
  }

  /** A topic is advertised on the connection in use at its first mention. */
  lemma AdvertisedWhereFirstMentioned(sendOk: bool, es: seq<Event>, topic: string, m: nat)
    requires m < |es| && IsMention(es[m], topic) && forall i :: 0 <= i < m ==> !IsMention(es[i], topic)
    ensures AdvertisedOn(RunTo(sendOk, es, m + 1).wire, topic, RunTo(sendOk, es, m).conn)
  {
    RunAdvertInv(sendOk, es, m);
    NotMentionedYet(es, topic, m);
    MentionsIsIn(FoldTo(Mention, [], es, m), topic);
    AdvertisesNewTopic(RunTo(sendOk, es, m), es[m]);
  }

  /** No timer event in this stretch of the run finds the service inactive and so creates a client. */
  ghost predicate NoNewClient(sendOk: bool, es: seq<Event>, m: nat, n: nat)
    requires m <= n <= |es|
  {
    forall k :: m <= k < n ==> !CreatesClient(RunTo(sendOk, es, k), es[k])
  }

  predicate CreatesClient(s: State, e: Event) {
    e.EReconnectTimer? && !s.active
  }

  lemma StepConn(s: State, e: Event)
    ensures Step(s, e).conn == s.conn + (if CreatesClient(s, e) then 1 else 0)
  {
  }

  lemma {:induction false} SameConnIff(sendOk: bool, es: seq<Event>, m: nat, n: nat)
    requires m <= n <= |es|
    ensures RunTo(sendOk, es, m).conn == RunTo(sendOk, es, n).conn <==> NoNewClient(sendOk, es, m, n)
  {
    forall s, e
      ensures Step(s, e).conn == s.conn + (if CreatesClient(s, e) then 1 else 0)
    {
      StepConn(s, e);
    }
    FoldToCounts(Step, Init(sendOk), es, (s: State) => s.conn, CreatesClient, m, n);
  }

  /** The last message publishes the topic. */
  predicate PublishesLast(wire: seq<Msg>, topic: string) {
    wire != [] && wire[|wire|-1].Published? && wire[|wire|-1].topic == topic
  }

  /** The last message has an earlier advertise of the topic on its own connection. */
  ghost predicate LastIsAdvertised(wire: seq<Msg>, topic: string) {
    exists j :: 0 <= j < |wire| - 1 && AdvertisesAt(wire, j, topic) && wire[j].conn == wire[|wire|-1].conn
  }

  /**
    The list of advertised topics survives a reconnect. So the n-th event, a publish, is preceded by an
    advertise on its own connection exactly when no reconnect timer created a client since the first
    mention of its topic.
  */
  lemma {:induction false} AdvertisedOnItsConnectionIff(sendOk: bool, es: seq<Event>, n: nat)
    requires n < |es| && es[n].EPublish?
    ensures
      var wire := RunTo(sendOk, es, n + 1).wire;
      && PublishesLast(wire, es[n].topic)
      && (LastIsAdvertised(wire, es[n].topic)
          <==> NoNewClient(sendOk, es, FirstMention(es, es[n].topic, 0, n), n))
  {
    var topic := es[n].topic;
    var m := FirstMention(es, topic, 0, n);
    RunAdvertInv(sendOk, es, n + 1);
    AdvertisedWhereFirstMentioned(sendOk, es, topic, m);
    StaysAdvertised(sendOk, es, topic, RunTo(sendOk, es, m).conn, m + 1, n + 1);
    SameConnIff(sendOk, es, m, n);
    PublishIsLast(RunTo(sendOk, es, n), es[n]);
    OnlyAdvertise(RunTo(sendOk, es, n + 1).wire, topic, RunTo(sendOk, es, m).conn);
  }

  lemma PublishIsLast(s: State, e: Event)
    requires e.EPublish?
    ensures
      var wire := Step(s, e).wire;
      PublishesLast(wire, e.topic) && wire[|wire|-1].conn == s.conn
  {
  }

  /** A topic is advertised once, so an advertise on another connection rules out one on this connection. */
  lemma OnlyAdvertise(wire: seq<Msg>, topic: string, conn: nat)
    requires AdvertisedOnce(wire) && AdvertisedOn(wire, topic, conn) && PublishesLast(wire, topic)
    ensures LastIsAdvertised(wire, topic) <==> wire[|wire|-1].conn == conn
  {
    var j: nat :| AdvertisesAt(wire, j, topic) && wire[j].conn == conn;
    assert forall k: nat :: AdvertisesAt(wire, k, topic) ==> k == j;
  }

  /** A run in which the second publish of a topic uses a connection on which it was never advertised. */
  lemma ReconnectLosesAdvertise(topic: string, kind: string, data: string)
    ensures
      var wire := Run(true, [EPublish(topic, kind, data), EClientLost, EReconnectTimer(true),
                             EPublish(topic, kind, data)]).wire;
      && |wire| == 3 && AdvertisesAt(wire, 0, topic) && wire[0].conn == 1
      && wire[2].Published? && wire[2].topic == topic && wire[2].conn == 2
  {
    var es := [EPublish(topic, kind, data), EClientLost, EReconnectTimer(true), EPublish(topic, kind, data)];
    var s1 := Publish(Init(true), topic, kind, data);
    assert RunTo(true, es, 0) == Init(true);
    assert RunTo(true, es, 1) == Step(RunTo(true, es, 0), es[0]) == s1;
    assert RunTo(true, es, 2) == OnClientLost(s1);
    assert RunTo(true, es, 3) == ConnectToRobot(OnClientLost(s1), true);
  }

  // ---------------------------------------------------------------- dispatch

  /** What the subscriptions of one topic should be: only events of that topic matter. */
  function TopicSubscriptions(es: seq<Event>, n: nat, topic: string): seq<Subscription>
    requires n <= |es|
  {
    if n == 0 then [] else Subscriptions(TopicSubscriptions(es, n - 1, topic), es[n-1], topic)
  }

  function Subscriptions(before: seq<Subscription>, e: Event, topic: string): seq<Subscription> {
    match e
    case ESubscribe(t, _, handler, id) => if t == topic then before + [Subscription(handler, t, id)] else before
    case EUnsubscribe(t, owner) => if t == topic then RemoveFirst(before, t, owner) else before
    case _ => before
  }

  lemma {:induction false} ForTopicConcat(a: seq<Subscription>, b: seq<Subscription>, topic: string)
    ensures ForTopic(a + b, topic) == ForTopic(a, topic) + ForTopic(b, topic)
  {
    var all := a + b;
    if a == [] {
      assert all == b;
    } else {
      assert all[0] == a[0] && all[1..] == a[1..] + b;
      ForTopicConcat(a[1..], b, topic);
      var head := if a[0].topic == topic then [a[0]] else [];
      var tail := ForTopic(a[1..], topic);
      assert ForTopic(all, topic) == head + ForTopic(all[1..], topic);
      assert head + (tail + ForTopic(b, topic)) == (head + tail) + ForTopic(b, topic);
    }
  }

  lemma ForTopicOne(sub: Subscription, topic: string)
    ensures ForTopic([sub], topic) == if sub.topic == topic then [sub] else []
  {
    assert [sub][1..] == [];
  }

  /** Removal commutes with selecting a topic; other topics do not notice it. */
  lemma {:induction false} RemoveFirstForTopic(list: seq<Subscription>, topic: string, owner: nat, other: string)
    ensures ForTopic(RemoveFirst(list, topic, owner), other) ==
      if other == topic then RemoveFirst(ForTopic(list, topic), topic, owner) else ForTopic(list, other)
  {
    if list != [] {
      RemoveFirstForTopic(list[1..], topic, owner, other);
      var rest := ForTopic(list[1..], topic);
      if list[0].topic == topic {
        assert ForTopic(list, topic) == [list[0]] + rest;
        assert ([list[0]] + rest)[1..] == rest;
      } else {
        assert ForTopic(list, topic) == rest;
      }
      if !Bound(list[0], topic, owner) {
        assert ([list[0]] + RemoveFirst(list[1..], topic, owner))[1..] == RemoveFirst(list[1..], topic, owner);
      }
    }
  }

  lemma {:induction false} FirstBoundForTopic(list: seq<Subscription>, topic: string, owner: nat)
    ensures FirstBound(ForTopic(list, topic), topic, owner) == FirstBound(list, topic, owner)
  {
    if list != [] {
      var rest := ForTopic(list[1..], topic);
      FirstBoundForTopic(list[1..], topic, owner);
      assert ([list[0]] + rest)[1..] == rest;
      assert ForTopic(list, topic) == if list[0].topic == topic then [list[0]] + rest else rest;
    }
  }

  /** How a step changes the subscriptions of one topic. */
  lemma StepSubscriptions(s: State, e: Event, topic: string)
    ensures ForTopic(Step(s, e).subscriptions, topic) == Subscriptions(ForTopic(s.subscriptions, topic), e, topic)
  {
    match e
    case ESubscribe(t, _, handler, id) =>
      var sub := Subscription(handler, t, id);
      ForTopicConcat(s.subscriptions, [sub], topic);
      ForTopicOne(sub, topic);
    case EUnsubscribe(t, owner) => RemoveFirstForTopic(s.subscriptions, t, owner, topic);
    case _ =>
  }

  predicate SubsTold(es: seq<Event>, topic: string, n: nat, s: State) {
    n <= |es| && ForTopic(s.subscriptions, topic) == TopicSubscriptions(es, n, topic)
  }

  lemma {:induction false} NextSubscriptions(es: seq<Event>, topic: string, n: nat, s: State)
    requires n < |es| && SubsTold(es, topic, n, s)
    ensures SubsTold(es, topic, n + 1, Step(s, es[n]))
  {
    StepSubscriptions(s, es[n], topic);
  }

  lemma {:induction false} RunSubscriptions(sendOk: bool, es: seq<Event>, n: nat, topic: string)
    requires n <= |es|
    ensures ForTopic(RunTo(sendOk, es, n).subscriptions, topic) == TopicSubscriptions(es, n, topic)
  {
    var p := (k: nat, s: State) => SubsTold(es, topic, k, s);
    forall k: nat
      ensures StepHolds(Step, Init(sendOk), es, p, k)
    {
      if k < |es| && p(k, FoldTo(Step, Init(sendOk), es, k)) {
        NextSubscriptions(es, topic, k, FoldTo(Step, Init(sendOk), es, k));
      }
    }
    FoldToInvariant(Step, Init(sendOk), es, p, n);
  }

  /**
    After any run a frame calls just the handlers subscribed to its topic and not removed since, once
    each, in subscription order; what happened to other topics does not matter.
  */
  lemma {:induction false} FrameCallsSubscribers(sendOk: bool, es: seq<Event>, topic: string, data: string)
    ensures Run(sendOk, es + [EFrame(topic, data)]).calls ==
      Run(sendOk, es).calls + CallAll(TopicSubscriptions(es, |es|, topic), data)
  {
    RunSubscriptions(sendOk, es, |es|, topic);
    FoldSnoc(Step, Init(sendOk), es, EFrame(topic, data));
  }
}
