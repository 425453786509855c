/**
  The chained requests of the example sensor (smartthings/sensors/ExampleSensor.cpp): each terminal
  notification of a client starts the request of the next Rest record, after variables in it were
  resolved from the responses so far; after the last one the last response is delivered.
*/
module RequestChain {
  import opened Basics
  import opened RestDoc

  /** The responses stored so far, by index. */
  type Responses = map<nat, string>

  /** ResolveVariables() is not part of the repository: any function of the responses and the document. */
  type Resolver = (Responses, Doc) -> Doc

  /** One client created: for which index, and with what. */
  datatype Request = Request(index: nat, url: string, headers: seq<Header>, kind: string)

  datatype State = State(
    rests: seq<Rest>,
    index: nat,
    responses: Responses,
    requests: seq<Request>,
    delivered: seq<Option<string>>,
    deleted: bool)

  ghost predicate Valid(s: State) {
    s.index < |s.rests|
  }

  function MakeRequest(s: State, authorization: string): State
    requires s.index < |s.rests|
  {
    var r := s.rests[s.index];
    PutSorted(r.headers, "Authorization", authorization);
    var headers := Put(r.headers, "Authorization", authorization);
    s.(rests := s.rests[s.index := r.(headers := headers)],
       requests := s.requests + [Request(s.index, r.url + r.params, headers, r.kind)])
  }

  function New(rests: seq<Rest>, authorization: string): State
    requires rests != []
  {
    MakeRequest(State(rests, 0, map[], [], [], false), authorization)
  }

  function OnResponse(s: State, content: string): State {
    s.(responses := s.responses[s.index := content])
  }

  /** The record at an index after it went through Serialize, ResolveVariables and Deserialize. */
  function ResolveRest(r: Rest, responses: Responses, resolve: Resolver): Rest {
    Decode(r, resolve(responses, Encode(r)))
  }

  function OnState(s: State, terminal: bool, resolve: Resolver, authorization: string): State
    requires s.index < |s.rests|
  {
    if !terminal then s
    else if s.index < |s.rests| - 1 then
      var i := s.index + 1;
      MakeRequest(s.(index := i, rests := s.rests[i := ResolveRest(s.rests[i], s.responses, resolve)]), authorization)
    else
      s.(delivered := s.delivered + [if s.index in s.responses then Some(s.responses[s.index]) else None],
         deleted := true)
  }

  // ---------------------------------------------------------------- whole runs

  datatype Event = EResponse(content: string) | EState(terminal: bool)

  /** Nothing happens to a deleted chain. */
  function Step(s: State, e: Event, resolve: Resolver, authorization: string): State
    requires s.index < |s.rests|
  {
    if s.deleted then s
    else match e
      case EResponse(content) => OnResponse(s, content)
      case EState(terminal) => OnState(s, terminal, resolve, authorization)
  }

  function Run(rests: seq<Rest>, es: seq<Event>, resolve: Resolver, authorization: string): (r: State)
    requires rests != []
    ensures Valid(r) && |r.rests| == |rests|
  {
    if es == [] then New(rests, authorization)
    else Step(Run(rests, es[..|es|-1], resolve, authorization), es[|es|-1], resolve, authorization)
  }

  /** Terminal notifications in a run. */
  function Terminals(es: seq<Event>): nat {
    if es == [] then 0
    else Terminals(es[..|es|-1]) + (if es[|es|-1] == EState(true) then 1 else 0)
  }

  /** The last response that arrived after k terminal notifications and before the next one. */
  function ResponseOf(es: seq<Event>, k: nat): Option<string> {
    if es == [] then None
    else
      var before := es[..|es|-1];
      if es[|es|-1].EResponse? && Terminals(before) == k then Some(es[|es|-1].content)
      else ResponseOf(before, k)
  }

  /** The record index k had when its request was made. */
  function RequestedRest(rests: seq<Rest>, es: seq<Event>, k: nat, resolve: Resolver): Rest
    requires k < |rests|
  {
    if k == 0 then rests[0] else ResolveRest(rests[k], ResponsesBefore(es, k), resolve)
  }

  function ResponsesBefore(es: seq<Event>, k: nat): Responses {
    map i: nat | i < k && ResponseOf(es, i).Some? :: ResponseOf(es, i).value
  }

  function RequestFor(k: nat, r: Rest, authorization: string): Request {
    Request(k, r.url + r.params, Put(r.headers, "Authorization", authorization), r.kind)
  }

  /** The whole story of a run, by its number of terminal notifications. */
  ghost predicate Story(rests: seq<Rest>, es: seq<Event>, s: State, resolve: Resolver, authorization: string)
    requires rests != []
  {
    var n, t := |rests|, Terminals(es);
    && |s.rests| == n && s.index == Min(t, n - 1)
    && (forall i :: s.index < i < n ==> s.rests[i] == rests[i])
    && |s.requests| == s.index + 1
    && (forall k :: 0 <= k <= s.index ==>
          s.requests[k] == RequestFor(k, RequestedRest(rests, es, k, resolve), authorization))
    && s.responses == ResponsesBefore(es, n)
    && (s.deleted <==> t >= n)
    && s.delivered == (if t >= n then [ResponseOf(es, n - 1)] else [])
  }

  lemma {:induction false} NoResponseYet(es: seq<Event>, k: nat)
    requires Terminals(es) < k
    ensures ResponseOf(es, k) == None
  {
    if es != [] {
      NoResponseYet(es[..|es|-1], k);
    }
  }

  lemma {:induction false} SnocFacts(es: seq<Event>, e: Event, k: nat)
    ensures Terminals(es + [e]) == Terminals(es) + (if e == EState(true) then 1 else 0)
    ensures ResponseOf(es + [e], k) ==
      if e.EResponse? && Terminals(es) == k then Some(e.content) else ResponseOf(es, k)
  {
    assert (es + [e])[..|es|] == es;
  }

  /** What arrives later does not change the responses of the indices already passed. */
  lemma {:induction false} ResponsesSettled(es: seq<Event>, e: Event, k: nat)
    requires k <= Terminals(es) || !e.EResponse?
    ensures ResponsesBefore(es + [e], k) == ResponsesBefore(es, k)
  {
    forall i: nat | i < k
      ensures ResponseOf(es + [e], i) == ResponseOf(es, i)
    {
      SnocFacts(es, e, i);
    }
  }

  lemma {:induction false} ResponsesGrow(es: seq<Event>, e: Event, n: nat)
    requires e.EResponse? && Terminals(es) < n
    ensures ResponsesBefore(es + [e], n) == ResponsesBefore(es, n)[Terminals(es) := e.content]
  {
    forall i: nat
      ensures ResponseOf(es + [e], i) ==
        if Terminals(es) == i then Some(e.content) else ResponseOf(es, i)
    {
      SnocFacts(es, e, i);
    }
  }

  lemma {:induction false} ResponsesUpTo(es: seq<Event>, k: nat, n: nat)
    requires Terminals(es) < k <= n
    ensures ResponsesBefore(es, n) == ResponsesBefore(es, k)
  {
    forall i: nat | k <= i
      ensures ResponseOf(es, i) == None
    {
      NoResponseYet(es, i);
    }
  }

  lemma {:induction false} RequestsSettled(rests: seq<Rest>, es: seq<Event>, e: Event, k: nat, resolve: Resolver)
    requires k < |rests| && (k <= Terminals(es) || !e.EResponse?)
    ensures RequestedRest(rests, es + [e], k, resolve) == RequestedRest(rests, es, k, resolve)
  {
    ResponsesSettled(es, e, k);
  }

  lemma {:induction false} StoryQuiet(
      rests: seq<Rest>, es: seq<Event>, e: Event, s: State, resolve: Resolver, authorization: string)
    requires rests != [] && Story(rests, es, s, resolve, authorization)
    requires s.deleted || e == EState(false)
    ensures Story(rests, es + [e], s, resolve, authorization)
  {
    SnocFacts(es, e, |rests| - 1);
    ResponsesSettled(es, e, |rests|);
    forall k: nat | k <= s.index {
      RequestsSettled(rests, es, e, k, resolve);
    }
  }

  lemma {:induction false} StoryResponse(
      rests: seq<Rest>, es: seq<Event>, content: string, s: State, resolve: Resolver, authorization: string)
    requires rests != [] && Story(rests, es, s, resolve, authorization) && !s.deleted
    ensures Story(rests, es + [EResponse(content)], OnResponse(s, content), resolve, authorization)
  {
    var e := EResponse(content);
    SnocFacts(es, e, |rests| - 1);
    ResponsesGrow(es, e, |rests|);
    forall k: nat | k <= s.index {
      RequestsSettled(rests, es, e, k, resolve);
    }
  }

  /** A terminal notification adds no response: what index k sees is all there is. */
  lemma {:induction false} NextSees(es: seq<Event>, k: nat, n: nat)
    requires k == Terminals(es) + 1 && k <= n
    ensures ResponsesBefore(es + [EState(true)], n) == ResponsesBefore(es, n)
    ensures ResponsesBefore(es + [EState(true)], k) == ResponsesBefore(es, n)
  {
    ResponsesSettled(es, EState(true), n);
    ResponsesSettled(es, EState(true), k);
    ResponsesUpTo(es, k, n);
  }

  lemma {:induction false} StoryNext(
      rests: seq<Rest>, es: seq<Event>, s: State, resolve: Resolver, authorization: string)
    requires rests != [] && Story(rests, es, s, resolve, authorization) && s.index < |rests| - 1
    ensures Story(rests, es + [EState(true)], OnState(s, true, resolve, authorization), resolve, authorization)
  {
    var e, i := EState(true), s.index + 1;
    SnocFacts(es, e, |rests| - 1);
    NextSees(es, i, |rests|);
    var r := OnState(s, true, resolve, authorization);
    assert r.requests[i] == RequestFor(i, RequestedRest(rests, es + [e], i, resolve), authorization);
    forall k: nat | k < i
      ensures r.requests[k] == RequestFor(k, RequestedRest(rests, es + [e], k, resolve), authorization)
    {
      RequestsSettled(rests, es, e, k, resolve);
      assert r.requests[k] == s.requests[k];
    }
  }

  lemma {:induction false} StoryEnd(
      rests: seq<Rest>, es: seq<Event>, s: State, resolve: Resolver, authorization: string)
    requires rests != [] && Story(rests, es, s, resolve, authorization) && s.index == |rests| - 1 && !s.deleted
    ensures Story(rests, es + [EState(true)], OnState(s, true, resolve, authorization), resolve, authorization)
  {
    var e := EState(true);
    SnocFacts(es, e, |rests| - 1);
    ResponsesSettled(es, e, |rests|);
    forall k: nat | k <= s.index {
      RequestsSettled(rests, es, e, k, resolve);
    }
  }

  /** The poll of a paused sensor does nothing; that of a sensor without records reads m_Rests[0] all the same. */
  datatype PollOutcome = Skipped | IndexesEmptyVector | Started(chain: State)

  /** A poll, and then the events of the chain it started. */
  function Poll(paused: int, rests: seq<Rest>, es: seq<Event>, resolve: Resolver, authorization: string): PollOutcome {
    if paused > 0 then Skipped
    else if rests == [] then IndexesEmptyVector
    else Started(Run(rests, es, resolve, authorization))
  }

  lemma {:induction false} RunStory(rests: seq<Rest>, es: seq<Event>, resolve: Resolver, authorization: string)
    requires rests != []
    ensures Story(rests, es, Run(rests, es, resolve, authorization), resolve, authorization)
    decreases |es|
  {
    if es != [] {
      var before, e := es[..|es|-1], es[|es|-1];
      assert es == before + [e];
      RunStory(rests, before, resolve, authorization);
      var s := Run(rests, before, resolve, authorization);
      if s.deleted || e == EState(false) {
        StoryQuiet(rests, before, e, s, resolve, authorization);
      } else if e.EResponse? {
        StoryResponse(rests, before, e.content, s, resolve, authorization);
      } else if s.index < |rests| - 1 {
        StoryNext(rests, before, s, resolve, authorization);
      } else {
        StoryEnd(rests, before, s, resolve, authorization);
      }
    }
  }

  // ---------------------------------------------------------------- what a request carries

  /** The document a record is written to. */
  function Written(url: string, kind: string, params: string, headers: seq<Header>): Doc {
    Doc(url, kind, Some(params), if |headers| == 0 then None else Some(headers))
  }

  /** The document of the k-th record after resolution; the first record is not resolved. */
  function ResolvedDoc(rests: seq<Rest>, es: seq<Event>, k: nat, resolve: Resolver): Doc
    requires k < |rests|
  {
    var doc := Written(rests[k].url, rests[k].kind, rests[k].params, rests[k].headers);
    if k == 0 then doc else resolve(ResponsesBefore(es, k), doc)
  }

  /** A request has the members of a document, params missing there from the record, and the authorization. */
  ghost predicate Carries(q: Request, k: nat, doc: Doc, params: string, authorization: string) {
    && q.index == k && q.kind == doc.kind
    && q.url == doc.url + (match doc.params case Some(p) => p case None => params)
    && StrictlySorted(q.headers)
    && (forall key :: Lookup(q.headers, key) == Authorized(EntriesOf(doc), authorization, key))
  }

  /** The last entry with the key, but for the authorization, which is always the sensor's own. */
  function Authorized(entries: seq<Header>, authorization: string, key: string): Option<string> {
    if key == "Authorization" then Some(authorization) else Lookup(entries, key)
  }

  function EntriesOf(doc: Doc): seq<Header> {
    match doc.headers case Some(entries) => entries case None => []
  }

  lemma {:induction false} HeadersCarried(hs: Headers, entries: seq<Header>, authorization: string)
    requires hs == PutAll([], entries)
    ensures StrictlySorted(Put(hs, "Authorization", authorization))
    ensures forall key ::
      Lookup(Put(hs, "Authorization", authorization), key) == Authorized(entries, authorization, key)
  {
    PutSorted(hs, "Authorization", authorization);
    forall key: string
      ensures Lookup(Put(hs, "Authorization", authorization), key) == Authorized(entries, authorization, key)
    {
      PutLookup(hs, "Authorization", authorization, key);
      LastEntryWins(entries, key);
    }
  }

  lemma {:induction false} RequestForCarries(
      rests: seq<Rest>, es: seq<Event>, k: nat, resolve: Resolver, authorization: string)
    requires k < |rests|
    ensures Carries(RequestFor(k, RequestedRest(rests, es, k, resolve), authorization),
                    k, ResolvedDoc(rests, es, k, resolve), rests[k].params, authorization)
  {
    var r, doc := RequestedRest(rests, es, k, resolve), ResolvedDoc(rests, es, k, resolve);
    if k == 0 {
      PutAllRebuilds(r.headers);
    }
    HeadersCarried(r.headers, EntriesOf(doc), authorization);
  }

  /**
    Each request carries what its record says, the variables in it resolved from the responses to all
    earlier requests and from nothing else, and the authorization.
  */
  lemma {:induction false} RequestsCarryResolved(
      rests: seq<Rest>, es: seq<Event>, k: nat, resolve: Resolver, authorization: string)
    requires k < |rests| && k <= Terminals(es)
    ensures
      var s := Run(rests, es, resolve, authorization);
      && k < |s.requests|
      && Carries(s.requests[k], k, ResolvedDoc(rests, es, k, resolve), rests[k].params, authorization)
  {
    RunStory(rests, es, resolve, authorization);
    RequestForCarries(rests, es, k, resolve, authorization);
  }

  ghost predicate AllCarryResolved(
      rests: seq<Rest>, es: seq<Event>, s: State, resolve: Resolver, authorization: string) {
    |s.requests| <= |rests| &&
    forall k :: 0 <= k < |s.requests| ==>
      Carries(s.requests[k], k, ResolvedDoc(rests, es, k, resolve), rests[k].params, authorization)
  }

  /**
    In every run with t terminal notifications: the requests made are those of the records 0..min(t, n-1),
    one each, in index order, and carry what their records say with the variables resolved from the
    responses of the earlier ones; the chain is deleted exactly when t >= n, and then the last response of the last
    client, if any came, was delivered exactly once. No chain is started when the sensor is paused or has
    no records.
  */
  lemma {:induction false} ChainStory(
      paused: int, rests: seq<Rest>, es: seq<Event>, resolve: Resolver, authorization: string)
    ensures
      match Poll(paused, rests, es, resolve, authorization)
      case Skipped => paused > 0
      case IndexesEmptyVector => paused <= 0 && rests == []
      case Started(s) => paused <= 0 && rests != [] && Story(rests, es, s, resolve, authorization) &&
                         AllCarryResolved(rests, es, s, resolve, authorization)
  {
    if rests != [] {
      RunStory(rests, es, resolve, authorization);
      forall k: nat | k <= Terminals(es) && k < |rests| {
        RequestsCarryResolved(rests, es, k, resolve, authorization);
      }
    }
  }

  /** A resolver that puts the first response in place of the URL. */
  function UrlFromFirst(responses: Responses, doc: Doc): Doc {
    doc.(url := if 0 in responses then responses[0] else "")
  }

  /** The second request goes to the URL that the first one answered. */
  lemma SecondRequestSeesFirstResponse(a: Rest, b: Rest, content: string, authorization: string)
    ensures
      var s := Run([a, b], [EResponse(content), EState(true)], UrlFromFirst, authorization);
      |s.requests| == 2 && s.requests[1].url == content + b.params
  {
    var es := [EResponse(content), EState(true)];
    assert es[..1] == [EResponse(content)] && es[..1][..0] == [];
    assert Terminals([]) == 0 && Terminals(es[..1]) == 0 && Terminals(es) == 1;
    assert ResponseOf(es[..1], 0) == Some(content) && ResponseOf(es, 0) == Some(content);
    RequestsCarryResolved([a, b], es, 1, UrlFromFirst, authorization);
    RunStory([a, b], es, UrlFromFirst, authorization);
  }

  /** When there is nothing to resolve, each request is made from the record as it was configured. */
  lemma UnresolvedRequest(rests: seq<Rest>, es: seq<Event>, k: nat)
    requires k < |rests|
    ensures RequestedRest(rests, es, k, (responses, doc) => doc) == rests[k]
  {
    RoundTrip(rests[k], rests[k]);
  }
}
