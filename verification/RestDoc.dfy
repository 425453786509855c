/**
  The Rest record of the example sensor (smartthings/sensors/ExampleSensor.h) and the JSON document that
  Serialize writes and Deserialize reads. A header map is a sequence of entries strictly sorted by key,
  which is how the map iterates.
*/
module RestDoc {
  import opened Basics
  import opened StringOrder

  datatype Header = Header(key: string, value: string)

  ghost predicate StrictlySorted(hs: seq<Header>) {
    forall i, j :: 0 <= i < j < |hs| ==> Less(hs[i].key, hs[j].key)
  }

  type Headers = hs: seq<Header> | StrictlySorted(hs) witness []

  datatype Rest = Rest(url: string, kind: string, params: string, headers: Headers)

  /** The members the two methods touch; a missing member is None, a missing string reads as "". */
  datatype Doc = Doc(url: string, kind: string, params: Option<string>, headers: Option<seq<Header>>)

  /** m_Headers[key] = value. */
  function Put(hs: seq<Header>, key: string, value: string): seq<Header> {
    if hs == [] || Less(key, hs[0].key) then [Header(key, value)] + hs
    else if hs[0].key == key then [Header(key, value)] + hs[1..]
    else [hs[0]] + Put(hs[1..], key, value)
  }

  lemma {:induction false} PutElements(hs: seq<Header>, key: string, value: string, h: Header)
    requires h in Put(hs, key, value)
    ensures h in hs || h == Header(key, value)
  {
    if !(hs == [] || Less(key, hs[0].key) || hs[0].key == key) && h != hs[0] {
      PutElements(hs[1..], key, value, h);
    }
  }

  lemma {:induction false} PutSorted(hs: Headers, key: string, value: string)
    ensures StrictlySorted(Put(hs, key, value))
  {
    if hs == [] {
    } else if Less(key, hs[0].key) {
      forall j | 0 <= j < |hs|
        ensures Less(key, hs[j].key)
      {
        if j > 0 {
          LessAsymmetric(hs[0].key, hs[j].key);
          LessTransitive(key, hs[0].key, hs[j].key);
        }
      }
    } else if hs[0].key != key {
      PutSorted(hs[1..], key, value);
      if !Less(hs[0].key, key) {
        LessTotal(hs[0].key, key);
      }
      var tail := Put(hs[1..], key, value);
      forall j | 0 <= j < |tail|
        ensures Less(hs[0].key, tail[j].key)
      {
        PutElements(hs[1..], key, value, tail[j]);
      }
    }
  }

  /** A key above all others goes to the end. */
  lemma {:induction false} PutLast(hs: Headers, key: string, value: string)
    requires forall i :: 0 <= i < |hs| ==> Less(hs[i].key, key)
    ensures Put(hs, key, value) == hs + [Header(key, value)]
  {
    if hs != [] {
      LessAsymmetric(hs[0].key, key);
      PutLast(hs[1..], key, value);
    }
  }

  function PutAll(hs: Headers, entries: seq<Header>): Headers {
    if entries == [] then hs
    else
      var before := PutAll(hs, entries[..|entries|-1]);
      var e := entries[|entries|-1];
      PutSorted(before, e.key, e.value);
      Put(before, e.key, e.value)
  }

  /** Inserting the entries of a map in order rebuilds the map. */
  lemma {:induction false} PutAllRebuilds(hs: Headers)
    ensures PutAll([], hs) == hs
    decreases |hs|
  {
    if hs != [] {
      var front: Headers := hs[..|hs|-1];
      PutAllRebuilds(front);
      PutLast(front, hs[|hs|-1].key, hs[|hs|-1].value);
    }
  }

  function Encode(r: Rest): Doc {
    Doc(r.url, r.kind, Some(r.params), if r.headers == [] then None else Some(r.headers))
  }

  /** Reading doc into a record that holds r. */
  function Decode(r: Rest, doc: Doc): Rest {
    Rest(doc.url, doc.kind, if doc.params.Some? then doc.params.value else r.params,
         PutAll([], if doc.headers.Some? then doc.headers.value else []))
  }

  /** Whatever the target held, reading back what was written restores the whole record. */
  lemma RoundTrip(r: Rest, target: Rest)
    ensures Decode(target, Encode(r)) == r
  {
    PutAllRebuilds(r.headers);
  }

  /** Which header a key has after reading a document: the last entry with that key. */
  function Lookup(hs: seq<Header>, key: string): Option<string> {
    if hs == [] then None
    else if hs[|hs|-1].key == key then Some(hs[|hs|-1].value)
    else Lookup(hs[..|hs|-1], key)
  }

  lemma {:induction false} LookupCons(h: Header, hs: seq<Header>, key: string)
    ensures Lookup([h] + hs, key) ==
      if Lookup(hs, key).Some? then Lookup(hs, key) else if h.key == key then Some(h.value) else None
    decreases |hs|
  {
    var all := [h] + hs;
    if hs == [] {
      assert all[..0] == [];
    } else {
      assert all[..|all|-1] == [h] + hs[..|hs|-1];
      LookupCons(h, hs[..|hs|-1], key);
    }
  }

  lemma {:induction false} LookupAbsent(hs: seq<Header>, key: string)
    requires forall i :: 0 <= i < |hs| ==> hs[i].key != key
    ensures Lookup(hs, key) == None
    decreases |hs|
  {
    if hs != [] {
      LookupAbsent(hs[..|hs|-1], key);
    }
  }

  lemma {:induction false} PutLookup(hs: Headers, key: string, value: string, k: string)
    ensures Lookup(Put(hs, key, value), k) == if k == key then Some(value) else Lookup(hs, k)
    decreases |hs|
  {
    if hs == [] {
      LookupCons(Header(key, value), [], k);
      assert [Header(key, value)] + [] == [Header(key, value)];
    } else {
      assert hs == [hs[0]] + hs[1..];
      LookupCons(hs[0], hs[1..], k);
      if Less(key, hs[0].key) {
        LookupCons(Header(key, value), hs, k);
        forall j | 0 <= j < |hs|
          ensures hs[j].key != key
        {
          if j > 0 {
            LessAsymmetric(key, hs[0].key);
          }
          LessAsymmetric(key, hs[0].key);
        }
        LookupAbsent(hs, key);
      } else if hs[0].key == key {
        LookupCons(Header(key, value), hs[1..], k);
        forall j | 0 <= j < |hs[1..]|
          ensures hs[1..][j].key != key
        {
          LessAsymmetric(hs[0].key, hs[j+1].key);
        }
        LookupAbsent(hs[1..], key);
      } else {
        PutLookup(hs[1..], key, value, k);
        LookupCons(hs[0], Put(hs[1..], key, value), k);
        forall j | 0 <= j < |hs[1..]|
          ensures hs[1..][j].key != hs[0].key
        {
          LessAsymmetric(hs[0].key, hs[j+1].key);
        }
        LookupAbsent(hs[1..], hs[0].key);
      }
    }
  }

  /** A document with repeated keys: the last entry of each key wins. */
  lemma {:induction false} LastEntryWins(entries: seq<Header>, key: string)
    ensures Lookup(PutAll([], entries), key) == Lookup(entries, key)
    decreases |entries|
  {
    if entries != [] {
      var e := entries[|entries|-1];
      LastEntryWins(entries[..|entries|-1], key);
      PutLookup(PutAll([], entries[..|entries|-1]), e.key, e.value, key);
    }
  }
}
