/** The example sensor's records and request runner as objects that update their fields. */
module ExampleSensor {
  import opened Basics
  import opened RestDoc
  import opened RequestChain
  import Spec = RequestChain

  class RestRecord {
    var token: string
    var url: string
    var kind: string
    var params: string
    var headers: Headers

    function Abs(): Rest
      reads this
    {
      Rest(url, kind, params, headers)
    }

    constructor ()
      ensures Abs() == Rest("", "", "", []) && token == ""
    {
      token, url, kind, params, headers := "", "", "", "", [];
    }

    method Serialize() returns (doc: Doc)
      ensures doc == Encode(Abs())
    {
      var entries: Option<seq<Header>> := None;
      var i := 0;
      while i < |headers|
        invariant 0 <= i <= |headers|
        invariant entries == if i == 0 then None else Some(headers[..i])
      {
        entries := Some((if entries.None? then [] else entries.value) + [headers[i]]);
        assert headers[..i+1] == headers[..i] + [headers[i]];
        i := i + 1;
      }
      assert headers[..i] == headers;
      doc := Doc(url, kind, Some(params), entries);
    }

    method Deserialize(doc: Doc)
      modifies this
      ensures Abs() == Decode(old(Abs()), doc) && token == old(token)
    {
      url := doc.url;
      kind := doc.kind;
      if doc.params.Some? {
        params := doc.params.value;
      }
      headers := [];
      if doc.headers.Some? {
        var entries := doc.headers.value;
        var i := 0;
        while i < |entries|
          invariant 0 <= i <= |entries|
          invariant headers == PutAll([], entries[..i])
          invariant unchanged(this`token) && url == doc.url && kind == doc.kind
          invariant params == if doc.params.Some? then doc.params.value else old(params)
        {
          assert entries[..i+1][..i] == entries[..i];
          PutSorted(headers, entries[i].key, entries[i].value);
          headers := Put(headers, entries[i].key, entries[i].value);
          i := i + 1;
        }
        assert entries[..i] == entries;
      }
    }
  }

  /** Runs the requests of one poll, one after the other. */
  class DeviceRequest {
    const resolve: Resolver
    const authorization: string
    var rests: seq<Rest>
    var index: nat
    var responses: Responses
    ghost var requests: seq<Request>
    ghost var delivered: seq<Option<string>>
    ghost var deleted: bool
    ghost var indexedEmpty: bool   // m_Rests[0] was read of an empty vector

    ghost function Abs(): State
      reads this
    {
      State(rests, index, responses, requests, delivered, deleted)
    }

    ghost predicate Valid()
      reads this
    {
      index < |rests|
    }

    constructor (rests: seq<Rest>, resolve: Resolver, authorization: string)
      ensures indexedEmpty <==> rests == []
      ensures !indexedEmpty ==> Valid() && Abs() == New(rests, authorization)
      ensures this.resolve == resolve && this.authorization == authorization
    {
      this.resolve, this.authorization := resolve, authorization;
      this.rests, index, responses := rests, 0, map[];
      requests, delivered, deleted := [], [], false;
      indexedEmpty := rests == [];
      new;
      if |this.rests| > 0 {
        MakeRequest();
      }
    }

    method OnState(terminal: bool)
      requires Valid() && !deleted
      modifies this
      ensures Valid() && Abs() == Spec.OnState(old(Abs()), terminal, resolve, authorization)
    {
      if terminal {
        if index < |rests| - 1 {
          index := index + 1;
          var req := Encode(rests[index]);
          req := resolve(responses, req);
          rests := rests[index := Decode(rests[index], req)];
          MakeRequest();
        } else {
          delivered := delivered + [if index in responses then Some(responses[index]) else None];
          deleted := true;
        }
      }
    }

    method OnResponse(content: string)
      requires Valid() && !deleted
      modifies this`responses
      ensures Valid() && Abs() == Spec.OnResponse(old(Abs()), content)
    {
      responses := responses[index := content];
    }

    method MakeRequest()
      requires Valid()
      modifies this`rests, this`requests
      ensures Valid() && Abs() == Spec.MakeRequest(old(Abs()), authorization)
    {
      var r := rests[index];
      PutSorted(r.headers, "Authorization", authorization);
      r := r.(headers := Put(r.headers, "Authorization", authorization));
      rests := rests[index := r];
      requests := requests + [Request(index, r.url + r.params, r.headers, r.kind)];
    }
  }

  class ExampleSensor {
    const resolve: Resolver
    const authorization: string
    var paused: int
    var rests: seq<Rest>

    constructor (rests: seq<Rest>, resolve: Resolver, authorization: string)
      ensures paused == 0 && this.rests == rests
      ensures this.resolve == resolve && this.authorization == authorization
    {
      this.resolve, this.authorization := resolve, authorization;
      this.paused, this.rests := 0, rests;
    }

    method OnPause()
      modifies this`paused
      ensures paused == old(paused) + 1
    {
      paused := paused + 1;
    }

    method OnResume()
      modifies this`paused
      ensures paused == old(paused) - 1
    {
      paused := paused - 1;
    }

    /** One poll: starts a chain of requests unless the sensor is paused. */
    method StreamingThread() returns (chain: DeviceRequest?)
      ensures chain != null ==> fresh(chain) && chain.resolve == resolve && chain.authorization == authorization
      ensures
        match Poll(paused, rests, [], resolve, authorization)
        case Skipped => chain == null
        case IndexesEmptyVector => chain != null && chain.indexedEmpty
        case Started(s) => chain != null && !chain.indexedEmpty && chain.Valid() && chain.Abs() == s
    {
      chain := null;
      if paused <= 0 {
        chain := new DeviceRequest(rests, resolve, authorization);
      }
    }
  }
}
