/**
 The in-process hub (internal/eventhub/hub.go): publishing never blocks; a subscriber whose
 channel is full is disconnected instead of missing an event.
 */
module EventHub {
  const CAPACITY: nat := 128

  /** Subscriber channels as the hub sees them. `log` is everything published; `since` is how long
      the log was when a subscriber came, and `taken` how many events it has taken: history. */
  class Hub {
    var subscribers: map<nat, seq<int>>
    var nextID: nat
    var dropped: nat
    ghost var log: seq<int>
    ghost var since: map<nat, nat>
    ghost var taken: map<nat, nat>

    /** A connected subscriber has received, in order, every event since it subscribed. */
    ghost predicate Lossless(id: nat)
      reads this
      requires id in subscribers
    {
      && id in since && id in taken && since[id] + taken[id] + |subscribers[id]| == |log|
      && subscribers[id] == log[since[id] + taken[id]..] && |subscribers[id]| <= CAPACITY
    }

    ghost predicate Valid()
      reads this
    {
      forall id :: id in subscribers ==> id <= nextID && Lossless(id)
    }

    constructor ()
      ensures Valid() && subscribers == map[] && log == [] && dropped == 0
    {
      subscribers, nextID, dropped, log, since, taken := map[], 0, 0, [], map[], map[];
    }

    method Subscribe() returns (id: nat)
      requires Valid()
      modifies this
      ensures Valid() && id !in old(subscribers) && subscribers == old(subscribers)[id := []] && log == old(log)
    {
      nextID := nextID + 1;
      id := nextID;
      subscribers, since, taken := subscribers[id := []], since[id := |log|], taken[id := 0];
    }

    method Cancel(id: nat)
      requires Valid()
      modifies this`subscribers
      ensures Valid() && subscribers == old(subscribers) - {id}
    {
      subscribers := subscribers - {id};
    }

    /** A receive from the subscriber's channel. */
    method Take(id: nat) returns (e: int)
      requires Valid() && id in subscribers && subscribers[id] != []
      modifies this`subscribers, this`taken
      ensures Valid() && subscribers.Keys == old(subscribers).Keys && e == old(log[since[id] + taken[id]])
      ensures taken == old(taken)[id := old(taken)[id] + 1]
    {
      e := subscribers[id][0];
      ghost var before := subscribers;
      assert forall i :: i in subscribers && i != id ==> Lossless(i);
      subscribers, taken := subscribers[id := subscribers[id][1..]], taken[id := taken[id] + 1];
    }

    /** The publishing loop: every subscriber with room gets the event; one without is dropped. */
    method Offer(e: int)
      modifies this`subscribers, this`dropped
      ensures forall id :: id in subscribers <==> id in old(subscribers) && |old(subscribers)[id]| < CAPACITY
      ensures forall id :: id in subscribers ==> subscribers[id] == old(subscribers)[id] + [e]
      ensures dropped == old(dropped) + |old(subscribers).Keys| - |subscribers.Keys|
    {
      var rest := subscribers.Keys;
      ghost var start := subscribers;
      while rest != {}
        invariant rest <= subscribers.Keys <= start.Keys
        invariant forall id :: id in start && id !in rest ==> (id in subscribers <==> |start[id]| < CAPACITY)
        invariant forall id :: id in rest ==> subscribers[id] == start[id]
        invariant forall id :: id in subscribers && id !in rest ==> subscribers[id] == start[id] + [e]
        invariant dropped == old(dropped) + |start.Keys| - |subscribers.Keys|
        decreases rest
      {
        var id :| id in rest;
        rest := rest - {id};
        ghost var before := subscribers.Keys;
        if |subscribers[id]| < CAPACITY {
          subscribers := subscribers[id := subscribers[id] + [e]];
          assert subscribers.Keys == before;
        } else {
          subscribers := subscribers - {id};
          assert before == subscribers.Keys + {id};
          dropped := dropped + 1;
        }
      }
    }

    method Publish(e: int)
      requires Valid()
      modifies this`subscribers, this`dropped, this`log
      ensures Valid() && log == old(log) + [e]
      ensures forall id :: id in subscribers <==> id in old(subscribers) && |old(subscribers)[id]| < CAPACITY
      ensures forall id :: id in subscribers ==> subscribers[id] == old(subscribers)[id] + [e]
      ensures dropped == old(dropped) + |old(subscribers).Keys| - |subscribers.Keys|
    {
      Offer(e);
      log := log + [e];
      forall id | id in subscribers ensures id <= nextID && Lossless(id) {
        assert old(Lossless(id));
      }
    }
  }
}
