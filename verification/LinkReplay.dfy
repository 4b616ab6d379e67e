/**
 One server-to-client link as a pair of FIFO channels and the client's buffer,
 and what it means to replay the undelivered commands onto that buffer.
 */
module LinkReplay {
  import opened Basics
  import opened BrokerTypes

  /** What the client keys its buffer by. */
  datatype Key = Key(requestId: RequestId, attempt: nat)

  datatype Reply = Reply(key: Key, packet: bytes)

  datatype Fault = DuplicateRequest | BufferFull

  const MAX_PENDING_REQUESTS: nat := 32

  /** Buffer one request, as the client does. */
  function Enqueue(buffer: set<Key>, key: Key): (r: Result<set<Key>, Fault>)
    ensures r.Success? ==> |r.value| <= MAX_PENDING_REQUESTS && key !in buffer
  {
    if key in buffer then Failure(DuplicateRequest)
    else if |buffer| >= MAX_PENDING_REQUESTS then Failure(BufferFull)
    else Success(buffer + {key})
  }

  function KeyOf(c: RemoteCommand): Key {
    Key(c.requestId, c.attempt)
  }

  /**
   `capacity` is the most requests the broker may have in flight on the link;
   `lost` are the requests it dropped there without recalling them.
   */
  datatype Link = Link(
    capacity: nat,
    down: seq<RemoteCommand>,
    buffer: set<Key>,
    up: seq<Reply>,
    open: bool,
    lost: set<Key>)
  {
    /** The most a client can come to buffer. */
    function Load(): nat {
      capacity + |lost|
    }
  }

  // ----- Replay -----

  ghost function Replay(buffer: set<Key>, down: seq<RemoteCommand>): set<Key>
    decreases |down|
  {
    if down == [] then buffer
    else if down[0].Request? then Replay(buffer + {KeyOf(down[0])}, down[1..])
    else Replay(buffer - {KeyOf(down[0])}, down[1..])
  }

  /** Every prefix of the commands can be delivered: no duplicate, and never more than `capacity` buffered. */
  ghost predicate Fits(buffer: set<Key>, down: seq<RemoteCommand>, capacity: nat)
    decreases |down|
  {
    && |buffer| <= capacity
    && (down != [] ==>
          if down[0].Request? then KeyOf(down[0]) !in buffer && Fits(buffer + {KeyOf(down[0])}, down[1..], capacity)
          else Fits(buffer - {KeyOf(down[0])}, down[1..], capacity))
  }

  lemma {:induction false} ReplayShrinks(small: set<Key>, buffer: set<Key>, down: seq<RemoteCommand>)
    requires small <= buffer
    ensures Replay(small, down) <= Replay(buffer, down)
    decreases |down|
  {
    if down != [] {
      var k := KeyOf(down[0]);
      if down[0].Request? {
        ReplayShrinks(small + {k}, buffer + {k}, down[1..]);
      } else {
        ReplayShrinks(small - {k}, buffer - {k}, down[1..]);
      }
    }
  }

  lemma {:induction false} FitsShrinks(small: set<Key>, buffer: set<Key>, down: seq<RemoteCommand>, capacity: nat)
    requires small <= buffer && Fits(buffer, down, capacity)
    ensures Fits(small, down, capacity)
    decreases |down|
  {
    SubsetCardinality(small, buffer);
    if down != [] {
      var k := KeyOf(down[0]);
      if down[0].Request? {
        FitsShrinks(small + {k}, buffer + {k}, down[1..], capacity);
      } else {
        FitsShrinks(small - {k}, buffer - {k}, down[1..], capacity);
      }
    }
  }

  lemma {:induction false} ReplayAppend(buffer: set<Key>, down: seq<RemoteCommand>, c: RemoteCommand)
    ensures Replay(buffer, down + [c])
         == if c.Request? then Replay(buffer, down) + {KeyOf(c)} else Replay(buffer, down) - {KeyOf(c)}
    decreases |down|
  {
    if down == [] {
      assert [] + [c] == [c];
      assert [c][1..] == [];
    } else {
      assert (down + [c])[1..] == down[1..] + [c];
      var k := KeyOf(down[0]);
      ReplayAppend(if down[0].Request? then buffer + {k} else buffer - {k}, down[1..], c);
    }
  }

  lemma {:induction false} FitsAppend(buffer: set<Key>, down: seq<RemoteCommand>, c: RemoteCommand, capacity: nat)
    requires Fits(buffer, down, capacity)
    requires c.Request? ==> KeyOf(c) !in Replay(buffer, down)
    requires |Replay(buffer, down + [c])| <= capacity
    ensures Fits(buffer, down + [c], capacity)
    decreases |down|
  {
    if down == [] {
      assert [] + [c] == [c];
      assert [c][1..] == [];
    } else {
      assert (down + [c])[1..] == down[1..] + [c];
      var k := KeyOf(down[0]);
      FitsAppend(if down[0].Request? then buffer + {k} else buffer - {k}, down[1..], c, capacity);
    }
  }

  // ----- Keys on a link -----

  ghost function Requested(down: seq<RemoteCommand>): set<Key> {
    set c | c in down && c.Request? :: KeyOf(c)
  }

  ghost function Answered(up: seq<Reply>): set<Key> {
    set r | r in up :: r.key
  }

  ghost function OnLink(link: Link): set<Key> {
    link.buffer + Requested(link.down) + Answered(link.up)
  }

  ghost predicate RequestsOnce(down: seq<RemoteCommand>) {
    forall i, j | 0 <= i < j < |down| && down[i].Request? && down[j].Request? :: KeyOf(down[i]) != KeyOf(down[j])
  }

  /** No key is at two places of the link. */
  ghost predicate Separate(link: Link) {
    && RequestsOnce(link.down)
    && (forall k <- link.buffer :: k !in Requested(link.down))
    && (forall k <- Answered(link.up) :: k !in link.buffer && k !in Requested(link.down))
  }

  lemma {:induction false} ReplayWithin(buffer: set<Key>, down: seq<RemoteCommand>)
    ensures Replay(buffer, down) <= buffer + Requested(down)
    decreases |down|
  {
    if down != [] {
      var k := KeyOf(down[0]);
      ReplayWithin(if down[0].Request? then buffer + {k} else buffer - {k}, down[1..]);
      assert forall c <- down[1..] :: c in down;
      assert down[0] in down;
    }
  }

  /** Taking a key out of the buffer takes it out of the replay, and nothing else. */
  lemma {:induction false} ReplayWithout(buffer: set<Key>, down: seq<RemoteCommand>, k: Key)
    requires k !in Requested(down)
    ensures Replay(buffer - {k}, down) == Replay(buffer, down) - {k}
    decreases |down|
  {
    if down != [] {
      var d := KeyOf(down[0]);
      assert down[0] in down;
      assert forall c <- down[1..] :: c in down;
      if down[0].Request? {
        assert buffer - {k} + {d} == buffer + {d} - {k};
        ReplayWithout(buffer + {d}, down[1..], k);
      } else {
        assert buffer - {k} - {d} == buffer - {d} - {k};
        ReplayWithout(buffer - {d}, down[1..], k);
      }
    }
  }

  // ----- The link invariant -----

  /**
   `flying` is what the broker has in flight on this link. Replaying the
   undelivered commands stays within it and what was lost; while the client is
   attached, whatever is in flight is undelivered, buffered, or answered on the
   way back.
   */
  ghost predicate LinkInv(flying: set<Key>, link: Link) {
    && |flying| <= link.capacity
    && (link.capacity == 0 ==> link.lost == {})
    && Fits(link.buffer, link.down, link.Load())
    && Replay(link.buffer, link.down) <= flying + link.lost
    && Separate(link)
    && (link.open ==> flying <= Replay(link.buffer, link.down) + Answered(link.up))
    && (!link.open ==> link.buffer == {})
  }

  lemma SeparateAppend(link: Link, c: RemoteCommand)
    requires Separate(link) && (c.Request? ==> KeyOf(c) !in OnLink(link))
    ensures Separate(link.(down := link.down + [c]))
    ensures OnLink(link.(down := link.down + [c])) == OnLink(link) + if c.Request? then {KeyOf(c)} else {}
  {
  }

  lemma SeparateDeliver(link: Link)
    requires Separate(link) && link.down != []
    ensures var c := link.down[0];
            var buffer := if c.Request? then link.buffer + {KeyOf(c)} else link.buffer - {KeyOf(c)};
            var next := link.(down := link.down[1..], buffer := buffer);
            Separate(next) && OnLink(next) <= OnLink(link)
  {
  }

  lemma WithinLoad(held: set<Key>, flying: set<Key>, link: Link)
    requires held <= flying + link.lost && |flying| <= link.capacity
    ensures |held| <= link.Load()
  {
    SubsetCardinality(held, flying + link.lost);
    assert |flying + link.lost| <= |flying| + |link.lost|;
  }

  lemma {:induction false} FitsMore(buffer: set<Key>, down: seq<RemoteCommand>, small: nat, large: nat)
    requires Fits(buffer, down, small) && small <= large
    ensures Fits(buffer, down, large)
    decreases |down|
  {
    if down != [] {
      var k := KeyOf(down[0]);
      FitsMore(if down[0].Request? then buffer + {k} else buffer - {k}, down[1..], small, large);
    }
  }

  /** The broker drops requests in flight without recalling them. */
  lemma LoseMove(flying: set<Key>, link: Link, gone: set<Key>)
    requires LinkInv(flying, link) && gone <= flying
    ensures LinkInv(flying - gone, link.(lost := link.lost + gone))
    ensures OnLink(link.(lost := link.lost + gone)) == OnLink(link)
  {
    hide Separate, Replay, Fits, Requested, Answered;
    SubsetCardinality(flying - gone, flying);
    SubsetCardinality(gone, flying);
    SubsetCardinality(link.lost, link.lost + gone);
    FitsMore(link.buffer, link.down, link.Load(), link.(lost := link.lost + gone).Load());
    KeepsSeparate(link, link.lost + gone);
  }

  lemma KeepsSeparate(link: Link, lost: set<Key>)
    requires Separate(link)
    ensures Separate(link.(lost := lost))
  {
  }

  lemma CancelMove(flying: set<Key>, link: Link, c: RemoteCommand)
    requires LinkInv(flying, link) && c.CancelAttempt?
    ensures LinkInv(flying - {KeyOf(c)}, link.(down := link.down + [c]))
    ensures OnLink(link.(down := link.down + [c])) == OnLink(link)
  {
    hide Separate, OnLink, Replay, Fits, Answered, Link.Load;
    var k := KeyOf(c);
    SeparateAppend(link, c);
    ReplayAppend(link.buffer, link.down, c);
    SameLoad(link, link.(down := link.down + [c]));
    SubsetCardinality(flying - {k}, flying);
    WithinLoad(Replay(link.buffer, link.down + [c]), flying, link);
    FitsAppend(link.buffer, link.down, c, link.Load());
  }

  lemma RequestMove(flying: set<Key>, link: Link, c: RemoteCommand)
    requires LinkInv(flying, link) && c.Request?
    requires KeyOf(c) !in OnLink(link) && |flying + {KeyOf(c)}| <= link.capacity
    ensures LinkInv(flying + {KeyOf(c)}, link.(down := link.down + [c]))
    ensures OnLink(link.(down := link.down + [c])) == OnLink(link) + {KeyOf(c)}
  {
    hide Separate, OnLink, Replay, Fits, Answered, Link.Load;
    var k := KeyOf(c);
    NotReplayed(link, k);
    SeparateAppend(link, c);
    ReplayAppend(link.buffer, link.down, c);
    SameLoad(link, link.(down := link.down + [c]));
    WithinLoad(Replay(link.buffer, link.down + [c]), flying + {k}, link);
    FitsAppend(link.buffer, link.down, c, link.Load());
  }

  lemma NotReplayed(link: Link, k: Key)
    requires k !in OnLink(link)
    ensures k !in Replay(link.buffer, link.down)
  {
    ReplayWithin(link.buffer, link.down);
  }

  lemma SameLoad(link: Link, next: Link)
    requires next.capacity == link.capacity && next.lost == link.lost
    ensures next.Load() == link.Load()
  {
  }

  /** The broker takes one reply off the link. */
  lemma ReplyMove(flying: set<Key>, link: Link)
    requires LinkInv(flying, link) && link.up != []
    ensures LinkInv(flying - {link.up[0].key}, link.(up := link.up[1..]))
    ensures OnLink(link.(up := link.up[1..])) <= OnLink(link)
  {
    hide Fits, Replay, Requested, RequestsOnce, Answered;
    var k := link.up[0].key;
    AnsweredHead(link.up);
    ReplayWithin(link.buffer, link.down);
    SubsetCardinality(flying - {k}, flying);
  }

  lemma AnsweredHead(up: seq<Reply>)
    requires up != []
    ensures Answered(up) == Answered(up[1..]) + {up[0].key}
  {
    assert up == [up[0]] + up[1..];
  }

  /** The client receives the oldest command: it is never at fault when the capacity fits its buffer. */
  lemma DeliverMove(flying: set<Key>, link: Link)
    requires LinkInv(flying, link) && link.open && link.down != []
    ensures var c := link.down[0];
            var buffer := if c.Request? then link.buffer + {KeyOf(c)} else link.buffer - {KeyOf(c)};
            && LinkInv(flying, link.(down := link.down[1..], buffer := buffer))
            && OnLink(link.(down := link.down[1..], buffer := buffer)) <= OnLink(link)
  {
    var c, rest := link.down[0], link.down[1..];
    var buffer := if c.Request? then link.buffer + {KeyOf(c)} else link.buffer - {KeyOf(c)};
    ReplayHead(link.buffer, link.down, link.Load());
    hide Separate, OnLink, Answered, Replay, Fits, Link.Load;
    SeparateDeliver(link);
    SameLoad(link, link.(down := rest, buffer := buffer));
  }

  lemma ReplayHead(buffer: set<Key>, down: seq<RemoteCommand>, load: nat)
    requires Fits(buffer, down, load) && down != []
    ensures var c := down[0];
            var next := if c.Request? then buffer + {KeyOf(c)} else buffer - {KeyOf(c)};
            Replay(buffer, down) == Replay(next, down[1..]) && Fits(next, down[1..], load)
  {
  }

  /** The client answers a buffered request. */
  lemma RespondMove(flying: set<Key>, link: Link, k: Key, packet: bytes)
    requires LinkInv(flying, link) && link.open && k in link.buffer
    ensures var next := link.(buffer := link.buffer - {k}, up := link.up + [Reply(k, packet)]);
            LinkInv(flying, next) && OnLink(next) <= OnLink(link)
  {
    hide Replay, Fits, Requested, RequestsOnce, Answered, Link.Load;
    var up := link.up + [Reply(k, packet)];
    ReplayWithout(link.buffer, link.down, k);
    FitsShrinks(link.buffer - {k}, link.buffer, link.down, link.Load());
    SameLoad(link, link.(buffer := link.buffer - {k}, up := up));
    AnsweredAppend(link.up, Reply(k, packet));
  }

  lemma AnsweredAppend(up: seq<Reply>, r: Reply)
    ensures Answered(up + [r]) == Answered(up) + {r.key}
  {
    assert r in up + [r];
  }

  lemma ClientClosesMove(flying: set<Key>, link: Link)
    requires LinkInv(flying, link)
    ensures LinkInv(flying, link.(open := false, buffer := {}))
    ensures OnLink(link.(open := false, buffer := {})) <= OnLink(link)
  {
    ReplayShrinks({}, link.buffer, link.down);
    FitsShrinks({}, link.buffer, link.down, link.Load());
  }

  /** A request that fits is no duplicate, and the buffer is full only beyond what the client holds. */
  lemma DeliveryFits(buffer: set<Key>, down: seq<RemoteCommand>, load: nat)
    requires Fits(buffer, down, load) && down != [] && down[0].Request?
    ensures Enqueue(buffer, KeyOf(down[0])) != Failure(DuplicateRequest)
    ensures Enqueue(buffer, KeyOf(down[0])) == Failure(BufferFull) ==> load > MAX_PENDING_REQUESTS
    ensures load > 0
  {
    assert |buffer + {KeyOf(down[0])}| == |buffer| + 1;
  }
}
