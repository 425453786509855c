/**
  The ROS bridge client in its own form: an object that updates its fields, with the subscriptions in a
  multimap sorted by topic. Each method is proved to take the step that RosSpec gives for it on the
  plain list of subscriptions.
*/
module RosPlatform {
  import opened Basics
  import opened RosIds
  import opened RosSpec
  import opened StringOrder
  import Spec = RosSpec

  /** The content of the multimap, in iteration order. */
  type Multimap = seq<Subscription>

  ghost predicate Sorted(m: Multimap) {
    forall i, j :: 0 <= i <= j < |m| ==> !Less(m[j].topic, m[i].topic)
  }

  /** Where a new entry goes: behind all entries with the same key. */
  function UpperBound(m: Multimap, key: string): (u: nat)
    ensures u <= |m|
    ensures forall i :: 0 <= i < u ==> !Less(key, m[i].topic)
    ensures u < |m| ==> Less(key, m[u].topic)
  {
    if m == [] || Less(key, m[0].topic) then 0 else 1 + UpperBound(m[1..], key)
  }

  /** The first entry with the key, or the end. */
  function Find(m: Multimap, key: string): (f: nat)
    ensures f <= |m|
    ensures forall i :: 0 <= i < f ==> m[i].topic != key
    ensures f < |m| ==> m[f].topic == key
  {
    if m == [] || m[0].topic == key then 0 else 1 + Find(m[1..], key)
  }

  function Insert(m: Multimap, sub: Subscription): Multimap {
    var u := UpperBound(m, sub.topic);
    m[..u] + [sub] + m[u..]
  }

  // ---------------------------------------------------------------- the entries of one topic

  lemma {:induction false} ForTopicNone(a: seq<Subscription>, topic: string)
    requires forall i :: 0 <= i < |a| ==> a[i].topic != topic
    ensures ForTopic(a, topic) == []
  {
    if a != [] {
      ForTopicNone(a[1..], topic);
    }
  }

  lemma ForTopicSplit(m: Multimap, i: nat, topic: string)
    requires i < |m|
    ensures ForTopic(m[..i+1], topic) == ForTopic(m[..i], topic) + (if m[i].topic == topic then [m[i]] else [])
  {
    assert m[..i+1] == m[..i] + [m[i]];
    ForTopicConcat(m[..i], [m[i]], topic);
  }

  lemma NoneBehind(m: Multimap, f: nat, i: nat, topic: string)
    requires Sorted(m) && f <= i < |m| && m[f].topic == topic && m[i].topic != topic
    ensures forall j :: i <= j < |m| ==> m[j].topic != topic
  {
    forall j | i <= j < |m|
      ensures m[j].topic != topic
    {
      if m[j].topic == topic {
        LessTotal(m[i].topic, topic);
      }
    }
  }

  /** Behind an entry of the topic, the first entry of another topic ends the walk for good. */
  lemma WalkEnds(m: Multimap, f: nat, i: nat, topic: string)
    requires Sorted(m) && f <= i < |m| && m[f].topic == topic && m[i].topic != topic
    ensures ForTopic(m[..i], topic) == ForTopic(m, topic)
  {
    assert m == m[..i] + m[i..];
    ForTopicConcat(m[..i], m[i..], topic);
    NoneBehind(m, f, i, topic);
    ForTopicNone(m[i..], topic);
  }

  lemma InsertSorted(m: Multimap, sub: Subscription)
    requires Sorted(m)
    ensures Sorted(Insert(m, sub))
  {
    var u := UpperBound(m, sub.topic);
    forall j | u <= j < |m|
      ensures !Less(m[j].topic, sub.topic)
    {
      LessTransitive(sub.topic, m[u].topic, m[j].topic);
      LessAsymmetric(sub.topic, m[j].topic);
    }
    if Less(sub.topic, sub.topic) {
      LessAsymmetric(sub.topic, sub.topic);
    }
  }

  lemma InsertForTopic(m: Multimap, sub: Subscription, topic: string)
    requires Sorted(m)
    ensures ForTopic(Insert(m, sub), topic) == ForTopic(m, topic) + (if sub.topic == topic then [sub] else [])
  {
    var u := UpperBound(m, sub.topic);
    var pre, post := m[..u], m[u..];
    assert m == pre + post;
    ForTopicConcat(pre, post, topic);
    ForTopicConcat(pre + [sub], post, topic);
    ForTopicConcat(pre, [sub], topic);
    ForTopicOne(sub, topic);
    if sub.topic == topic {
      NoneAbove(m, topic);
      ForTopicNone(post, topic);
    }
  }

  lemma NoneAbove(m: Multimap, key: string)
    requires Sorted(m)
    ensures forall j :: UpperBound(m, key) <= j < |m| ==> m[j].topic != key
  {
    var u := UpperBound(m, key);
    forall j | u <= j < |m|
      ensures m[j].topic != key
    {
      LessTransitive(key, m[u].topic, m[j].topic);
      if Less(key, key) {
        LessAsymmetric(key, key);
      }
    }
  }

  /** Both hold the same entries of every topic, in the same order. */
  ghost predicate SameByTopic(m: Multimap, list: seq<Subscription>) {
    forall topic :: ForTopic(m, topic) == ForTopic(list, topic)
  }

  // ---------------------------------------------------------------- removing

  lemma {:induction false} RemoveFirstAt(list: seq<Subscription>, i: nat, topic: string, owner: nat)
    requires i < |list| && Bound(list[i], topic, owner)
    requires forall j :: 0 <= j < i ==> !Bound(list[j], topic, owner)
    ensures RemoveFirst(list, topic, owner) == list[..i] + list[i+1..]
  {
    if i > 0 {
      RemoveFirstAt(list[1..], i - 1, topic, owner);
      assert list[..i] + list[i+1..] == [list[0]] + (list[1..][..i-1] + list[1..][i..]);
    }
  }

  lemma {:induction false} RemoveFirstNone(list: seq<Subscription>, topic: string, owner: nat)
    requires forall j :: 0 <= j < |list| ==> !Bound(list[j], topic, owner)
    ensures RemoveFirst(list, topic, owner) == list
  {
    if list != [] {
      RemoveFirstNone(list[1..], topic, owner);
    }
  }

  lemma {:induction false} FirstBoundAt(list: seq<Subscription>, i: nat, topic: string, owner: nat)
    requires i <= |list|
    requires forall j :: 0 <= j < i ==> !Bound(list[j], topic, owner)
    ensures FirstBound(list, topic, owner) == FirstBound(list[i..], topic, owner)
  {
    if i > 0 {
      FirstBoundAt(list[1..], i - 1, topic, owner);
      assert list[1..][i-1..] == list[i..];
    }
  }

  lemma {:induction false} ForTopicElements(list: seq<Subscription>, topic: string, x: Subscription)
    ensures x in ForTopic(list, topic) <==> x in list && x.topic == topic
  {
    if list != [] {
      ForTopicElements(list[1..], topic, x);
    }
  }

  /** What Unsubscribe() does: it removes an entry, or none, or it dereferences the end iterator. */
  datatype Outcome = Removed | NotFound | DereferencesEnd

  function IntendedOutcome(list: seq<Subscription>, topic: string, owner: nat): Outcome {
    if FirstBound(list, topic, owner).Some? then Removed else NotFound
  }

  function WrittenOutcome(list: seq<Subscription>, topic: string): Outcome {
    if ForTopic(list, topic) == [] then DereferencesEnd else NotFound
  }

  /** Unsubscribe() as written does what it is meant to exactly when the topic has entries, none of them bound. */
  lemma WrittenMeetsIntentIff(list: seq<Subscription>, topic: string, owner: nat)
    ensures WrittenOutcome(list, topic) == IntendedOutcome(list, topic, owner) <==>
      ForTopic(list, topic) != [] && forall sub :: sub in ForTopic(list, topic) ==> sub.handler.owner != owner
  {
    var mine := ForTopic(list, topic);
    FirstBoundForTopic(list, topic, owner);
    forall sub | sub in mine
      ensures sub.topic == topic
    {
      ForTopicElements(list, topic, sub);
    }
    FirstBoundNoneIff(mine, topic, owner);
  }

  lemma {:induction false} FirstBoundNoneIff(list: seq<Subscription>, topic: string, owner: nat)
    ensures FirstBound(list, topic, owner).None? <==> forall sub :: sub in list ==> !Bound(sub, topic, owner)
  {
    if list != [] {
      FirstBoundNoneIff(list[1..], topic, owner);
    }
  }

  /** A subscriber that asks to be removed stays subscribed. */
  lemma UnsubscribeDoesNothing(sub: Subscription)
    ensures WrittenOutcome([sub], sub.topic) == NotFound
    ensures IntendedOutcome([sub], sub.topic, sub.handler.owner) == Removed
  {
    assert ForTopic([sub], sub.topic) == [sub];
  }

  /** For a topic nobody subscribed to, Unsubscribe() reads through the end iterator. */
  lemma UnsubscribeUnknownTopic(topic: string, owner: nat)
    ensures WrittenOutcome([], topic) == DereferencesEnd && IntendedOutcome([], topic, owner) == NotFound
  {
  }

  class RosPlatform {
    var counter: int
    var idMap: seq<string>
    var advertisements: seq<string>
    var subscriptionMap: Multimap
    var webClient: nat
    var active: bool
    ghost var wire: seq<Msg>
    ghost var calls: seq<Call>
    ghost var subscriptions: seq<Subscription>   // in subscription order

    ghost function Abs(): State
      reads this
    {
      State(counter, idMap, advertisements, subscriptions, webClient, active, wire, calls)
    }

    ghost predicate Valid()
      reads this
    {
      Sorted(subscriptionMap) && SameByTopic(subscriptionMap, subscriptions)
    }

    constructor (sendOk: bool)
      ensures Valid() && Abs() == Spec.Init(sendOk)
    {
      counter, idMap, advertisements, subscriptionMap := 0, [], [], [];
      webClient, active := 1, sendOk;
      wire, calls, subscriptions := [], [], [];
    }

    method ConnectToRobot(sendOk: bool)
      modifies this`webClient, this`active
      ensures Abs() == Spec.ConnectToRobot(old(Abs()), sendOk)
    {
      if !active {
        active := true;
        webClient := webClient + 1;
        if !sendOk {
          active := false;
        }
      }
    }

    method Publish(topic: string, kind: string, data: string) returns (ok: bool)
      requires Valid()
      modifies this
      ensures Valid() && ok && Abs() == Spec.Publish(old(Abs()), topic, kind, data)
    {
      Advertise(topic, kind);
      counter := Increment(counter);
      var id := MakeId("publish", topic, counter);
      idMap := idMap + [id];
      wire := wire + [Published(webClient, id, topic, data)];
      ok := true;
    }

    method Advertise(topic: string, kind: string)
      requires Valid()
      modifies this`counter, this`idMap, this`advertisements, this`wire
      ensures Valid() && Abs() == Spec.Advertise(old(Abs()), topic, kind)
    {
      if topic !in advertisements {
        counter := Increment(counter);
        var id := MakeId("advertise", topic, counter);
        idMap := idMap + [id];
        advertisements := advertisements + [topic];
        wire := wire + [Advertised(webClient, id, topic, kind)];
      }
    }

    method Subscribe(topic: string, kind: string, handler: Handler, id: string) returns (ok: bool)
      requires Valid()
      modifies this`subscriptionMap, this`subscriptions, this`wire
      ensures Valid() && ok && Abs() == Spec.Subscribe(old(Abs()), topic, kind, handler, id)
    {
      var sub := Subscription(handler, topic, id);
      InsertSorted(subscriptionMap, sub);
      forall t: string
        ensures ForTopic(Insert(subscriptionMap, sub), t) == ForTopic(subscriptions + [sub], t)
      {
        InsertForTopic(subscriptionMap, sub, t);
        ForTopicConcat(subscriptions, [sub], t);
      }
      subscriptionMap := Insert(subscriptionMap, sub);
      subscriptions := subscriptions + [sub];
      wire := wire + [Subscribed(webClient, id, topic, kind)];
      ok := true;
    }

    /** The walk over the multimap calls the handlers of the topic, once each, in subscription order. */
    method OnFrame(topic: string, data: string)
      requires Valid()
      modifies this`calls
      ensures Valid() && Abs() == Spec.OnTopicFrame(old(Abs()), topic, data)
    {
      var i := Find(subscriptionMap, topic);
      ghost var f := i;
      assert subscriptionMap[..|subscriptionMap|] == subscriptionMap;
      ForTopicNone(subscriptionMap[..f], topic);
      if i != |subscriptionMap| {
        while i != |subscriptionMap|
          invariant f <= i <= |subscriptionMap|
          invariant calls == old(calls) + CallAll(ForTopic(subscriptionMap[..i], topic), data)
          decreases |subscriptionMap| - i
        {
          if subscriptionMap[i].topic != topic {
            WalkEnds(subscriptionMap, f, i, topic);
            break;
          }
          ForTopicSplit(subscriptionMap, i, topic);
          calls := calls + [Call(subscriptionMap[i].handler, data)];
          i := i + 1;
        }
        assert i == |subscriptionMap| ==> subscriptionMap[..i] == subscriptionMap;
      }
      assert ForTopic(subscriptionMap, topic) == ForTopic(subscriptions, topic);
    }

    /** As written, the loop runs only when the topic was not found, and then reads the end iterator. */
    method Unsubscribe(topic: string, owner: nat) returns (r: Outcome)
      requires Valid()
      ensures r == WrittenOutcome(subscriptions, topic)
    {
      var i := Find(subscriptionMap, topic);
      assert ForTopic(subscriptionMap, topic) == ForTopic(subscriptions, topic);
      if i == |subscriptionMap| {
        ForTopicNone(subscriptionMap, topic);
        return DereferencesEnd;
      }
      ForTopicElements(subscriptionMap, topic, subscriptionMap[i]);
      return NotFound;
    }

    /** With the guard turned round: removes the first entry of the topic bound to the object, if any. */
    method UnsubscribeCorrected(topic: string, owner: nat) returns (r: Outcome)
      requires Valid()
      modifies this`subscriptionMap, this`subscriptions, this`wire
      ensures Valid() && r == IntendedOutcome(old(subscriptions), topic, owner)
      ensures Abs() == Spec.Unsubscribe(old(Abs()), topic, owner)
    {
      ghost var m := subscriptionMap;
      assert ForTopic(m, topic) == ForTopic(subscriptions, topic);
      FirstBoundForTopic(m, topic, owner);
      FirstBoundForTopic(subscriptions, topic, owner);
      var i := Find(subscriptionMap, topic);
      ghost var f := i;
      while i != |subscriptionMap|
        invariant f <= i <= |subscriptionMap|
        invariant forall j :: 0 <= j < i ==> !Bound(subscriptionMap[j], topic, owner)
        decreases |subscriptionMap| - i
      {
        if subscriptionMap[i].topic != topic {
          NoneBehind(subscriptionMap, f, i, topic);
          break;
        }
        if subscriptionMap[i].handler.owner == owner {
          FirstBoundAt(m, i, topic, owner);
          wire := wire + [Unsubscribed(webClient, subscriptionMap[i].id, subscriptionMap[i].topic)];
          Erase(i, topic, owner);
          return Removed;
        }
        i := i + 1;
      }
      FirstBoundAt(m, |m|, topic, owner);
      FirstBoundNoneIff(subscriptions, topic, owner);
      RemoveFirstNone(subscriptions, topic, owner);
      return NotFound;
    }

    /** Erases the entry at the iterator. */
    method Erase(i: nat, topic: string, owner: nat)
      requires Valid() && i < |subscriptionMap| && Bound(subscriptionMap[i], topic, owner)
      requires forall j :: 0 <= j < i ==> !Bound(subscriptionMap[j], topic, owner)
      modifies this`subscriptionMap, this`subscriptions
      ensures Valid()
      ensures subscriptions == RemoveFirst(old(subscriptions), topic, owner)
    {
      ghost var m := subscriptionMap;
      ghost var list := subscriptions;
      RemoveFirstAt(m, i, topic, owner);
      subscriptionMap := subscriptionMap[..i] + subscriptionMap[i+1..];
      subscriptions := RemoveFirst(subscriptions, topic, owner);
      forall t: string
        ensures ForTopic(subscriptionMap, t) == ForTopic(subscriptions, t)
      {
        assert ForTopic(m, t) == ForTopic(list, t) && ForTopic(m, topic) == ForTopic(list, topic);
        RemoveFirstForTopic(m, topic, owner, t);
        RemoveFirstForTopic(list, topic, owner, t);
      }
    }
  }
}
