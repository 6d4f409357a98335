/** `MemoryDeliveryStore`: which delivery ids are being handled or were handled. */
module DeliveryStore {

  datatype DeliveryState = Pending | Committed
  type Deliveries = map<string, DeliveryState>

  function Reserved(m: Deliveries, id: string): (r: Deliveries) {
    if id in m then m else m[id := Pending]
  }

  function CommittedAt(m: Deliveries, id: string): (r: Deliveries) {
    if id in m then m[id := Committed] else m
  }

  function ReleasedAt(m: Deliveries, id: string): (r: Deliveries) {
    if id in m && m[id] == Committed then m else m - {id}
  }

  /** A failed attempt leaves no trace, and a committed id survives a release. */
  lemma ReserveReleaseRoundTrip(m: Deliveries, id: string)
    ensures id !in m ==> ReleasedAt(Reserved(m, id), id) == m
    ensures id in m && m[id] == Committed ==> ReleasedAt(m, id) == m && Reserved(m, id) == m
  {
    if id !in m { assert m[id := Pending] - {id} == m; }
  }

  class MemoryDeliveryStore {
    var state: Deliveries

    constructor ()
      ensures state == map[]
    {
      state := map[];
    }

    method Reserve(id: string) returns (ok: bool)
      modifies this
      ensures ok <==> id !in old(state)
      ensures state == Reserved(old(state), id)
    {
      if id in state {
        return false;
      }
      state := state[id := Pending];
      return true;
    }

    method Commit(id: string)
      modifies this
      ensures state == CommittedAt(old(state), id)
    {
      if id in state {
        state := state[id := Committed];
      }
    }

    method Release(id: string)
      modifies this
      ensures state == ReleasedAt(old(state), id)
    {
      // A missing id reads as the zero state, which is pending.
      var current := if id in state then state[id] else Pending;
      if current == Pending {
        state := state - {id};
      }
    }

    function Seen(id: string): (ok: bool)
      reads this
    {
      id in state
    }
  }
}
