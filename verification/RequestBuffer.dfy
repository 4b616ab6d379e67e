/**
 The session's buffer as the code keeps it: a map from text to request objects
 that remembers the order of insertion.  It stands for the sequence of buffered
 requests because the text names one request and attempt.
 */
module RequestBuffer {
  import opened Basics
  import opened LinkReplay
  import opened ClientConduct
  import opened SessionModel
  import RequestKey
  import BrokerTypes

  /** How request ids are written; different ids are written differently. */
  ghost predicate Injective(text: BrokerTypes.RequestId -> string) {
    forall a, b :: text(a) == text(b) ==> a == b
  }

  class PendingRequest {
    const request: Request
    var processing: bool

    // When it was buffered, counting all requests.
    ghost const token: Token

    constructor (request: Request, ghost token: Token)
      ensures this.request == request && this.token == token && !processing
    {
      this.request, this.processing, this.token := request, false, token;
    }
  }

  function NameOf(text: BrokerTypes.RequestId -> string, key: Key): string {
    RequestKey.RequestKey(text(key.requestId), key.attempt)
  }

  /** Different requests and attempts have different names. */
  lemma NameInjective(text: BrokerTypes.RequestId -> string, a: Key, b: Key)
    requires Injective(text) && NameOf(text, a) == NameOf(text, b)
    ensures a == b
  {
    RequestKey.RequestKeyInjective(text(a.requestId), a.attempt, text(b.requestId), b.attempt);
  }

  /** Requests with the same token are the same object. */
  ghost predicate Knows(issued: seq<PendingRequest>, e: PendingRequest) {
    e.token < |issued| && issued[e.token] == e
  }

  /** The names in order of insertion lead to known requests that bear them. */
  ghost predicate Represents(text: BrokerTypes.RequestId -> string, order: seq<string>,
                             entries: map<string, PendingRequest>, issued: seq<PendingRequest>)
  {
    && NoDuplicates(order) && entries.Keys == Elements(order)
    && forall i | 0 <= i < |order| ::
         && order[i] in entries && Knows(issued, entries[order[i]])
         && order[i] == NameOf(text, entries[order[i]].request.key)
  }

  lemma AddRepresents(text: BrokerTypes.RequestId -> string, order: seq<string>, entries: map<string, PendingRequest>,
                      issued: seq<PendingRequest>, e: PendingRequest)
    requires Represents(text, order, entries, issued)
    requires e.token == |issued| && NameOf(text, e.request.key) !in entries
    ensures var name := NameOf(text, e.request.key);
            && Represents(text, order + [name], entries[name := e], issued + [e])
            && forall i | 0 <= i < |order| :: order[i] in entries && order[i] != name
  {
    hide NameOf;
    var name := NameOf(text, e.request.key);
    var longer := order + [name];
    assert Elements(longer) == Elements(order) + {name};
    assert forall i | 0 <= i < |order| :: longer[i] == order[i] && order[i] in entries;
  }

  lemma DeleteRepresents(text: BrokerTypes.RequestId -> string, order: seq<string>,
                         entries: map<string, PendingRequest>, issued: seq<PendingRequest>, i: nat)
    requires Represents(text, order, entries, issued) && i < |order|
    ensures Represents(text, RemoveAt(order, i), entries - {order[i]}, issued)
    ensures forall j | 0 <= j < |order| - 1 :: RemoveAt(order, i)[j] in entries && RemoveAt(order, i)[j] != order[i]
  {
    hide NameOf, Knows;
    RemovedElements(order, i);
    var r := RemoveAt(order, i);
    assert forall j | 0 <= j < |r| :: r[j] == order[if j < i then j else j + 1];
  }

  ghost predicate AllIn(order: seq<string>, entries: map<string, PendingRequest>) {
    forall i | 0 <= i < |order| :: order[i] in entries
  }

  lemma Named(text: BrokerTypes.RequestId -> string, order: seq<string>, entries: map<string, PendingRequest>,
              issued: seq<PendingRequest>)
    requires Represents(text, order, entries, issued)
    ensures AllIn(order, entries) && forall k <- entries :: entries[k] in issued
  {
  }

  ghost function ContentsOf(order: seq<string>, entries: map<string, PendingRequest>): (p: seq<Buffered>)
    requires AllIn(order, entries)
    reads entries.Values
    ensures |p| == |order|
    ensures forall i | 0 <= i < |order| ::
              var e := entries[order[i]];
              p[i] == Buffered(e.request, e.token, e.processing)
  {
    seq(|order|, i requires 0 <= i < |order| && order[i] in entries reads entries.Values =>
      var e := entries[order[i]];
      Buffered(e.request, e.token, e.processing))
  }

  lemma DeletedContents(order: seq<string>, entries: map<string, PendingRequest>, i: nat)
    requires NoDuplicates(order) && AllIn(order, entries) && i < |order|
    ensures AllIn(RemoveAt(order, i), entries - {order[i]})
    ensures ContentsOf(RemoveAt(order, i), entries - {order[i]}) == RemoveAt(ContentsOf(order, entries), i)
  {
    var r := RemoveAt(order, i);
    assert forall j | 0 <= j < |r| :: r[j] == order[if j < i then j else j + 1];
  }

  class PendingRequests {
    const text: BrokerTypes.RequestId -> string
    var order: seq<string>
    var entries: map<string, PendingRequest>

    // Every request ever buffered, by its token.
    ghost var issued: seq<PendingRequest>

    function Name(key: Key): string {
      NameOf(text, key)
    }

    ghost predicate Valid()
      reads this
    {
      Injective(text) && Represents(text, order, entries, issued)
    }

    /** The buffered requests in the order of their arrival. */
    ghost function Contents(): (p: seq<Buffered>)
      requires Valid()
      reads this, issued
      ensures |p| == |order|
    {
      ContentsOf(order, entries)
    }

    constructor (text: BrokerTypes.RequestId -> string)
      requires Injective(text)
      ensures Valid() && Contents() == [] && issued == [] && this.text == text
    {
      this.text, order, entries, issued := text, [], map[], [];
    }

    function Find(name: string): Option<PendingRequest>
      reads this
    {
      if name in entries then Some(entries[name]) else None
    }

    lemma FindsAt(i: nat)
      requires Valid() && i < |order|
      ensures Find(order[i]).Some? && Knows(issued, Find(order[i]).value) && entries[order[i]] == Find(order[i]).value
      ensures order[i] == Name(entries[order[i]].request.key)
      ensures var e := entries[order[i]];
              |Contents()| == |order| && Contents()[i] == Buffered(e.request, e.token, e.processing)
    {
    }

    /** Looking up the name finds the very entry that holds the key. */
    lemma FindsKey(key: Key)
      requires Valid()
      ensures var i, found := IndexOf(Contents(), key), Find(Name(key));
              && (found.Some? <==> i < |order|)
              && (found.Some? ==> order[i] == Name(key) && entries[order[i]] == found.value && Knows(issued, found.value))
    {
      var i := IndexOf(Contents(), key);
      if i < |order| {
        assert Contents()[i].request.key == key;
      }
      if Name(key) in entries {
        var j :| 0 <= j < |order| && order[j] == Name(key);
        NameInjective(text, entries[order[j]].request.key, key);
        assert Contents()[j] in Contents();
      }
    }

    /** Whether a name still leads to an entry is whether the key is buffered with its token. */
    lemma FindsEntry(e: PendingRequest)
      requires Valid() && Knows(issued, e)
      ensures var i := IndexOf(Contents(), e.request.key);
              Find(Name(e.request.key)) == Some(e) <==> i < |order| && Contents()[i].token == e.token
    {
      FindsKey(e.request.key);
    }

    /** Buffer a request under a name not in use, as a new object. */
    method Add(name: string, request: Request) returns (e: PendingRequest)
      requires Valid() && name == Name(request.key) && name !in entries
      modifies this
      ensures Valid() && fresh(e) && issued == old(issued) + [e] && order == old(order) + [name]
      ensures Contents() == old(Contents()) + [Buffered(request, |old(issued)|, false)]
    {
      hide Represents, Injective, NameOf;
      e := new PendingRequest(request, |issued|);
      AddRepresents(text, order, entries, issued, e);
      order := order + [name];
      entries := entries[name := e];
      issued := issued + [e];
    }

    /** Take out what is buffered under a name. */
    method Delete(name: string, ghost i: nat)
      requires Valid() && i < |order| && order[i] == name
      modifies this`order, this`entries
      ensures Valid() && Contents() == RemoveAt(old(Contents()), i)
    {
      DeleteRepresents(text, order, entries, issued, i);
      OthersRemain(order, i);
      Named(text, order, entries, issued);
      DeletedContents(order, entries, i);
      hide Represents, Injective, NameOf, Remaining, ContentsOf, RemoveAt, AllIn;
      order := Remaining(order, name);
      entries := entries - {name};
    }

    method Clear()
      requires Valid()
      modifies this`order, this`entries
      ensures Valid() && Contents() == []
    {
      order, entries := [], map[];
    }

    /** Mark a buffered request as being processed, which no other one notices. */
    method Start(e: PendingRequest, ghost i: nat)
      requires Valid() && i < |order| && order[i] in entries && entries[order[i]] == e
      modifies e
      ensures Valid() && Contents() == old(Contents())[i := old(Contents())[i].(processing := true)]
    {
      e.processing := true;
      forall j | 0 <= j < |order| && j != i
        ensures Contents()[j] == old(Contents())[j]
      {
        assert order[j] != order[i];
      }
    }
  }

  /** An order of insertion without one name. */
  function Remaining(order: seq<string>, name: string): seq<string> {
    if order == [] then []
    else (if order[0] == name then [] else [order[0]]) + Remaining(order[1..], name)
  }

  lemma {:induction false} NothingRemoved(order: seq<string>, name: string)
    requires name !in order
    ensures Remaining(order, name) == order
  {
    if order != [] {
      NothingRemoved(order[1..], name);
    }
  }

  lemma {:induction false} OthersRemain(order: seq<string>, i: nat)
    requires NoDuplicates(order) && i < |order|
    ensures Remaining(order, order[i]) == RemoveAt(order, i)
  {
    var rest := order[1..];
    if i == 0 {
      NothingRemoved(rest, order[0]);
      assert RemoveAt(order, 0) == rest;
    } else {
      assert rest[i - 1] == order[i];
      OthersRemain(rest, i - 1);
      assert RemoveAt(order, i) == [order[0]] + RemoveAt(rest, i - 1);
    }
  }

  lemma RemovedElements(order: seq<string>, i: nat)
    requires NoDuplicates(order) && i < |order|
    ensures NoDuplicates(RemoveAt(order, i)) && Elements(RemoveAt(order, i)) == Elements(order) - {order[i]}
  {
    var r := RemoveAt(order, i);
    assert forall k | 0 <= k < |r| :: r[k] == order[if k < i then k else k + 1];
    forall x | x in order && x != order[i]
      ensures x in r
    {
      var k :| 0 <= k < |order| && order[k] == x;
      assert r[if k < i then k else k - 1] == x;
    }
  }
}
