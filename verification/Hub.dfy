/** The session hub: messages published to a campaign land on every subscriber's queue. */
module Hub {
  import opened Common

  type Message = string

  /** One connection's queue: everything put on it so far. `since` is how many messages its
      campaign had seen when it subscribed. */
  class Queue {
    var items: seq<Message>
    const campaign: Id
    ghost const since: nat

    constructor (campaign: Id, ghost since: nat)
      ensures items == [] && this.campaign == campaign && this.since == since
    {
      items := [];
      this.campaign, this.since := campaign, since;
    }

    method Put(m: Message)
      modifies this
      ensures items == old(items) + [m]
    {
      items := items + [m];
    }
  }

  class SessionHub {
    var subs: map<Id, set<Queue>>
    ghost var published: map<Id, seq<Message>>

    constructor ()
      ensures subs == map[] && published == map[]
    {
      subs, published := map[], map[];
    }

    function Subscribers(c: Id): set<Queue>
      reads this
    {
      if c in subs then subs[c] else {}
    }

    ghost function Published(c: Id): seq<Message>
      reads this
    {
      if c in published then published[c] else []
    }

    ghost function Footprint(): set<object>
      reads this
    {
      set c, q | c in subs && q in subs[c] :: q
    }

    /** Every subscriber has exactly what its campaign was sent since it subscribed, and only
        campaigns with a subscriber are listed. */
    ghost predicate Valid()
      reads this, Footprint()
    {
      && (forall c :: c in subs ==> subs[c] != {})
      && (forall c, q :: c in subs && q in subs[c] ==>
            q.campaign == c && q.since <= |Published(c)| && q.items == Published(c)[q.since..])
    }

    method Subscribe(c: Id) returns (q: Queue)
      requires Valid()
      modifies this`subs
      ensures Valid() && fresh(q) && q.items == [] && q.campaign == c && q.since == |Published(c)|
      ensures Subscribers(c) == old(Subscribers(c)) + {q}
      ensures forall d :: d != c ==> Subscribers(d) == old(Subscribers(d))
    {
      q := new Queue(c, |Published(c)|);
      subs := subs[c := Subscribers(c) + {q}];
    }

    method Unsubscribe(c: Id, q: Queue)
      requires Valid()
      modifies this`subs
      ensures Valid() && Subscribers(c) == old(Subscribers(c)) - {q}
      ensures forall d :: d != c ==> Subscribers(d) == old(Subscribers(d))
    {
      if c in subs {
        var left := subs[c] - {q};
        subs := if left == {} then subs - {c} else subs[c := left];
      }
    }

    method PutAll(queues: set<Queue>, m: Message)
      modifies queues
      ensures forall q :: q in queues ==> q.items == old(q.items) + [m]
    {
      var rest := queues;
      while rest != {}
        invariant rest <= queues
        invariant forall q :: q in queues - rest ==> q.items == old(q.items) + [m]
        invariant forall q :: q in rest ==> q.items == old(q.items)
        decreases rest
      {
        var q :| q in rest;
        q.Put(m);
        rest := rest - {q};
      }
    }

    method Publish(c: Id, m: Message)
      requires Valid()
      modifies this`published, Subscribers(c)
      ensures Valid() && Published(c) == old(Published(c)) + [m]
      ensures forall d :: d != c ==> Published(d) == old(Published(d))
      ensures forall q :: q in Subscribers(c) ==> q.items == old(q.items) + [m]
    {
      PutAll(Subscribers(c), m);
      published := published[c := Published(c) + [m]];
    }

    method Connections(c: Id) returns (n: nat)
      ensures n == |Subscribers(c)|
    {
      n := if c in subs then |subs[c]| else 0;
    }

    /** The campaigns with at least one live connection. */
    method Campaigns() returns (live: set<Id>)
      requires Valid()
      ensures forall c :: c in live <==> Subscribers(c) != {}
    {
      live := subs.Keys;
    }

    /** Whoever connected later has a suffix of what any other client of the session has. */
    lemma LaterHasSuffix(c: Id, q: Queue, r: Queue)
      requires Valid() && q in Subscribers(c) && r in Subscribers(c) && |r.items| <= |q.items|
      ensures r.items == q.items[|q.items| - |r.items|..]
    {
      var log := Published(c);
      assert q.items[|q.items| - |r.items|..] == log[q.since..][r.since - q.since..] == log[r.since..];
    }
  }
}
