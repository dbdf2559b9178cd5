/**
 * The PubSub bridge (pubsub/bridge.go): a per-device table of the topics
 * bridged from endpoint A to endpoint B (fwd) and from B to A (rev). The two
 * endpoints are abstract: each Subscribe or Unsubscribe the bridge issues is
 * recorded in a call log, and what the endpoint returns is a parameter.
 */
module PubSubBridge {

  import opened Wrappers

  /** The bridge's two PubSub endpoints, pubsuba and pubsubb. */
  datatype Endpoint = A | B

  function Other(e: Endpoint): Endpoint
  {
    if e == A then B else A
  }

  /** Forward links subscribe on A and carry messages to B; reverse links the other way. */
  datatype Direction = Fwd | Rev

  function Source(dir: Direction): Endpoint
  {
    if dir == Fwd then A else B
  }

  /**
   * What a subscription installed by the bridge does with a message:
   * republish the payload to each target topic on an endpoint (AddLinkFwd,
   * AddLinkRev), or run the application's callback, handing it an endpoint
   * to publish on (AddFwd, AddRev).
   */
  datatype Handler =
    | Republish(to: Endpoint, targets: seq<string>)
    | Callback(deviceId: string, handed: Endpoint)

  /** The endpoint a handler sends the message on to. */
  function Destination(h: Handler): Endpoint
  {
    match h
    case Republish(to, _) => to
    case Callback(_, handed) => handed
  }

  /** A call the bridge makes on one of its endpoints. */
  datatype Call =
    | Subscribe(on: Endpoint, topic: string, handler: Handler)
    | Unsubscribe(on: Endpoint, topics: seq<string>)

  /** A bridge subscription sends what it receives across, to the endpoint it did not come from. */
  predicate Crosses(c: Call)
  {
    c.Subscribe? ==> Destination(c.handler) == Other(c.on)
  }

  /** One device's links: the topics bridged from A to B, and from B to A. */
  datatype Links = Links(fwd: seq<string>, rev: seq<string>)

  function Topics(ls: Links, dir: Direction): seq<string>
  {
    if dir == Fwd then ls.fwd else ls.rev
  }

  predicate NoDup(s: seq<string>)
  {
    forall i, j :: 0 <= i < j < |s| ==> s[i] != s[j]
  }

  /** A list with a topic marked down: appended unless already present. */
  function Appended(list: seq<string>, t: string): (r: seq<string>)
    ensures t in r
    ensures forall x :: x in r <==> x in list || x == t
    ensures |r| == if t in list then |list| else |list| + 1
  {
    if t in list then list else list + [t]
  }

  /** Marking a topic down never makes a duplicate. */
  lemma {:induction false} AppendedNoDup(list: seq<string>, t: string)
    requires NoDup(list)
    ensures NoDup(Appended(list, t))
  {
    if t !in list {
      var r := list + [t];
      forall i, j | 0 <= i < j < |r|
        ensures r[i] != r[j]
      {
        if j == |list| {
          assert r[i] == list[i];
        }
      }
    }
  }

  /** Marking the same topic down twice is marking it down once. */
  lemma AppendedIdempotent(list: seq<string>, t: string)
    ensures Appended(Appended(list, t), t) == Appended(list, t)
  {
  }

  /** A device's links with a topic marked down in one direction; the other direction is kept. */
  function WithLink(ls: Links, dir: Direction, t: string): (r: Links)
    ensures Topics(r, dir) == Appended(Topics(ls, dir), t)
    ensures dir == Fwd ==> r.rev == ls.rev
    ensures dir == Rev ==> r.fwd == ls.fwd
  {
    if dir == Fwd then ls.(fwd := Appended(ls.fwd, t)) else ls.(rev := Appended(ls.rev, t))
  }

  /** The first error of two calls made in order, or nil if neither failed. */
  function FirstError(first: Outcome, second: Outcome): (err: Outcome)
    ensures err.Ok? <==> first.Ok? && second.Ok?
    ensures first.Err? ==> err == first
    ensures first.Ok? ==> err == second
  {
    if first.Err? then first else second
  }

  /** Whether arr holds str (isIn): a linear scan. */
  method IsIn(arr: seq<string>, str: string) returns (found: bool)
    ensures found <==> str in arr
  {
    for i := 0 to |arr|
      invariant str !in arr[..i]
    {
      if arr[i] == str {
        return true;
      }
    }
    assert arr[..|arr|] == arr;
    return false;
  }

  class Bridge {
    /** Each bridged device's links. */
    var devicelinks: map<string, Links>
    /** The calls made on the endpoints, in order. */
    ghost var calls: seq<Call>

    /** No topic is listed twice in one direction, and every subscription made crosses the bridge. */
    ghost predicate Valid()
      reads this`devicelinks, this`calls
    {
      && (forall id :: id in devicelinks ==> NoDup(devicelinks[id].fwd) && NoDup(devicelinks[id].rev))
      && (forall i :: 0 <= i < |calls| ==> Crosses(calls[i]))
    }

    constructor ()
      ensures Valid()
      ensures devicelinks == map[] && calls == []
    {
      devicelinks := map[];
      calls := [];
    }

    /** A device's links, or empty lists for a device without any. */
    function LinksOf(id: string): Links
      reads this`devicelinks
    {
      if id in devicelinks then devicelinks[id] else Links([], [])
    }

    /** Whether the device has an entry in the table. */
    predicate IsDeviceLinked(id: string): (linked: bool)
      reads this`devicelinks
      ensures linked <==> id in devicelinks
      ensures !linked ==> LinksOf(id) == Links([], [])
    {
      id in devicelinks
    }

    /** Whether topica is bridged from A for the device. */
    method IsLinkFwd(id: string, topica: string) returns (linked: bool)
      ensures linked <==> IsDeviceLinked(id) && topica in devicelinks[id].fwd
    {
      linked := false;
      if id in devicelinks {
        linked := IsIn(devicelinks[id].fwd, topica);
      }
    }

    /** Whether topicb is bridged from B for the device. */
    method IsLinkRev(id: string, topicb: string) returns (linked: bool)
      ensures linked <==> IsDeviceLinked(id) && topicb in devicelinks[id].rev
    {
      linked := false;
      if id in devicelinks {
        linked := IsIn(devicelinks[id].rev, topicb);
      }
    }

    /**
     * The common body of the four add operations: mark the topic down in a
     * copy of the device's links, subscribe on the direction's source
     * endpoint, and commit the copy only if the subscription succeeded
     * (subscribed is what the endpoint's Subscribe returns).
     */
    method AddLink(id: string, dir: Direction, topic: string, handler: Handler, subscribed: Outcome)
      returns (err: Outcome)
      requires Valid()
      modifies this`devicelinks, this`calls
      ensures Valid() <==> Destination(handler) == Other(Source(dir))
      ensures err == subscribed
      ensures calls == old(calls) + [Subscribe(Source(dir), topic, handler)]
      ensures subscribed.Ok? ==> devicelinks == old(devicelinks)[id := WithLink(old(LinksOf(id)), dir, topic)]
      ensures subscribed.Err? ==> devicelinks == old(devicelinks)
    {
      var ls := Links([], []);
      if id in devicelinks {
        ls := devicelinks[id];
      }
      var marked := IsIn(Topics(ls, dir), topic);
      if !marked {
        if dir == Fwd {
          ls := ls.(fwd := ls.fwd + [topic]);
        } else {
          ls := ls.(rev := ls.rev + [topic]);
        }
      }
      calls := calls + [Subscribe(Source(dir), topic, handler)];
      assert calls[|calls| - 1] == Subscribe(Source(dir), topic, handler);
      if subscribed.Err? {
        return subscribed;
      }
      assert ls == WithLink(LinksOf(id), dir, topic);
      AppendedNoDup(Topics(LinksOf(id), dir), topic);
      assert NoDup(ls.fwd) && NoDup(ls.rev);
      devicelinks := devicelinks[id := ls];
      assert Valid() <== Destination(handler) == Other(Source(dir));
      return Ok;
    }

    /** Bridges topica on A to each of topicb on B. */
    method AddLinkFwd(id: string, topica: string, topicb: seq<string>, subscribed: Outcome) returns (err: Outcome)
      requires Valid()
      modifies this`devicelinks, this`calls
      ensures Valid()
      ensures err == subscribed
      ensures calls == old(calls) + [Subscribe(A, topica, Republish(B, topicb))]
      ensures subscribed.Ok? ==> devicelinks == old(devicelinks)[id := WithLink(old(LinksOf(id)), Fwd, topica)]
      ensures subscribed.Err? ==> devicelinks == old(devicelinks)
    {
      err := AddLink(id, Fwd, topica, Republish(B, topicb), subscribed);
    }

    /** Runs the application's callback on messages from topica on A, handing it B. */
    method AddFwd(id: string, topica: string, subscribed: Outcome) returns (err: Outcome)
      requires Valid()
      modifies this`devicelinks, this`calls
      ensures Valid()
      ensures err == subscribed
      ensures calls == old(calls) + [Subscribe(A, topica, Callback(id, B))]
      ensures subscribed.Ok? ==> devicelinks == old(devicelinks)[id := WithLink(old(LinksOf(id)), Fwd, topica)]
      ensures subscribed.Err? ==> devicelinks == old(devicelinks)
    {
      err := AddLink(id, Fwd, topica, Callback(id, B), subscribed);
    }

    /** Bridges topicb on B to each of topica on A. */
    method AddLinkRev(id: string, topicb: string, topica: seq<string>, subscribed: Outcome) returns (err: Outcome)
      requires Valid()
      modifies this`devicelinks, this`calls
      ensures Valid()
      ensures err == subscribed
      ensures calls == old(calls) + [Subscribe(B, topicb, Republish(A, topica))]
      ensures subscribed.Ok? ==> devicelinks == old(devicelinks)[id := WithLink(old(LinksOf(id)), Rev, topicb)]
      ensures subscribed.Err? ==> devicelinks == old(devicelinks)
    {
      err := AddLink(id, Rev, topicb, Republish(A, topica), subscribed);
    }

    /**
     * Runs the application's callback on messages from topicb on B, handing
     * it A, the endpoint its pubsuba parameter names (see AddRevAsWritten for
     * what the source hands it).
     */
    method AddRev(id: string, topicb: string, subscribed: Outcome) returns (err: Outcome)
      requires Valid()
      modifies this`devicelinks, this`calls
      ensures Valid()
      ensures err == subscribed
      ensures calls == old(calls) + [Subscribe(B, topicb, Callback(id, A))]
      ensures subscribed.Ok? ==> devicelinks == old(devicelinks)[id := WithLink(old(LinksOf(id)), Rev, topicb)]
      ensures subscribed.Err? ==> devicelinks == old(devicelinks)
    {
      err := AddLink(id, Rev, topicb, Callback(id, A), subscribed);
    }

    /**
     * AddRev as the source writes it: the callback is handed B, the endpoint
     * the message came from, so the subscription does not cross the bridge.
     */
    method AddRevAsWritten(id: string, topicb: string, subscribed: Outcome) returns (err: Outcome)
      requires Valid()
      modifies this`devicelinks, this`calls
      ensures !Valid()
      ensures calls == old(calls) + [Subscribe(B, topicb, Callback(id, B))]
      ensures !Crosses(calls[|calls| - 1])
    {
      err := AddLink(id, Rev, topicb, Callback(id, B), subscribed);
    }

    /**
     * Drops a device's links: unsubscribes its fwd topics on A and its rev
     * topics on B, each only when there are any, and deletes the entry
     * whatever those calls return; the first error is returned. fromA and
     * fromB are what the two Unsubscribe calls return when made.
     */
    method RemoveLinksAll(id: string, fromA: Outcome, fromB: Outcome) returns (err: Outcome)
      requires Valid()
      modifies this`devicelinks, this`calls
      ensures Valid()
      ensures !IsDeviceLinked(id)
      ensures devicelinks == old(devicelinks) - {id}
      ensures id !in old(devicelinks) ==> err == Ok && calls == old(calls)
      ensures id in old(devicelinks) ==>
                var ls := old(devicelinks[id]);
                && calls == old(calls) + (if |ls.fwd| > 0 then [Unsubscribe(A, ls.fwd)] else [])
                                       + (if |ls.rev| > 0 then [Unsubscribe(B, ls.rev)] else [])
                && err == FirstError(if |ls.fwd| > 0 then fromA else Ok, if |ls.rev| > 0 then fromB else Ok)
    {
      err := Ok;
      if id in devicelinks {
        var ls := devicelinks[id];
        if |ls.fwd| > 0 {
          calls := calls + [Unsubscribe(A, ls.fwd)];
          if fromA.Err? && err.Ok? {
            err := fromA;
          }
        }
        if |ls.rev| > 0 {
          calls := calls + [Unsubscribe(B, ls.rev)];
          if fromB.Err? && err.Ok? {
            err := fromB;
          }
        }
        devicelinks := devicelinks - {id};
      }
    }
  }
}
