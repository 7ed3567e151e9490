/** The subscription table of pubchain/broadcast.go. A client channel is its buffered content; every
    channel has capacity 1. */
module Broadcasting {
  import opened Common

  /** What a signing round hands to a worker: nil, or the signatures by signed message. */
  type Reply = Option<map<string, string>>
  type Clients = map<nat, seq<Reply>>

  function Subscribed(clients: Clients, id: nat): Clients {
    clients[id := []]
  }

  function Unsubscribed(clients: Clients, id: nat): Clients {
    clients - {id}
  }

  /** Every subscriber with an empty channel gets the reply. */
  function Delivered(clients: Clients, reply: Reply): Clients {
    map k | k in clients :: if clients[k] == [] then [reply] else clients[k]
  }

  class Broadcaster {
    var clients: Clients

    /** No send can block: a channel never holds more than its capacity. */
    ghost predicate Valid()
      reads this
    {
      forall k :: k in clients ==> |clients[k]| <= 1
    }

    constructor ()
      ensures Valid() && clients == map[]
    {
      clients := map[];
    }

    method Subscribe(id: nat) returns (ok: bool)
      requires Valid()
      modifies this
      ensures Valid() && (ok <==> id !in old(clients))
      ensures clients == if ok then Subscribed(old(clients), id) else old(clients)
      ensures ok ==> clients == old(clients)[id := []]
    {
      if id in clients {
        return false;
      }
      clients := clients[id := []];
      return true;
    }

    method Unsubscribe(id: nat)
      requires Valid()
      modifies this
      ensures Valid() && clients == Unsubscribed(old(clients), id)
      ensures clients.Keys == old(clients).Keys - {id} && forall k :: k in clients ==> clients[k] == old(clients)[k]
    {
      clients := clients - {id};
    }

    method Broadcast(ret: Reply)
      requires Valid()
      modifies this
      ensures Valid() && clients == Delivered(old(clients), ret) && clients.Keys == old(clients).Keys
      ensures forall k :: k in clients ==> clients[k] == if old(clients)[k] == [] then [ret] else old(clients)[k]
    {
      var rest := clients.Keys;
      while rest != {}
        invariant clients.Keys == old(clients).Keys && rest <= clients.Keys
        invariant forall k :: k in rest ==> clients[k] == old(clients)[k]
        invariant forall k :: k in clients && k !in rest ==> clients[k] == Delivered(old(clients), ret)[k]
      {
        var k :| k in rest;
        rest := rest - {k};
        if |clients[k]| == 0 {
          clients := clients[k := clients[k] + [ret]];
        }
      }
    }
  }
}
