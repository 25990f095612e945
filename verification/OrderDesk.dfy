/**
 The order handler's own memory and its search for an order already placed with a
 client_order_id (mt5api/handlers/orders.py), with the loops the handler runs.
 */
module OrderDesk {
  import opened Options
  import Mt5Session
  import ClientOrders

  // A broker list entry, and the trade result of a send, by its comment and a ticket.
  datatype Item = Item(comment: string, ticket: nat)

  datatype Sent = Sent(time: nat, result: Item)

  datatype Finding =
    | Nothing
    | RecentSend(item: Item)
    | Listed(source: Mt5Session.Source, item: Item)

  ghost predicate Holds(items: seq<Item>, id: string) {
    exists i :: 0 <= i < |items| && items[i].comment == id
  }

  // A broker list that was not answered reads as an empty one.
  function Read(answer: Option<seq<Item>>): seq<Item> {
    if answer.Some? then answer.value else []
  }

  function Kept(recent: map<string, Sent>, now: nat): map<string, Sent> {
    map c | c in recent && recent[c].time + Mt5Session.LOOKBACK >= now :: recent[c]
  }

  function Times(recent: map<string, Sent>): map<string, nat> {
    map c | c in recent :: recent[c].time
  }

  class Desk {
    var recent: map<string, Sent>

    constructor ()
      ensures recent == map[]
    {
      recent := map[];
    }

    /** Forget the sends older than the lookback window. */
    method ForgetOld(now: nat)
      modifies this
      ensures recent == Kept(old(recent), now)
      ensures Times(recent) == Mt5Session.Remembered(Times(old(recent)), now)
    {
      var before := recent;
      var stale := set c | c in before && before[c].time + Mt5Session.LOOKBACK < now;
      var todo := stale;
      while todo != {}
        invariant todo <= stale
        invariant recent == map c | c in before && c !in stale - todo :: before[c]
        decreases todo
      {
        var c :| c in todo;
        recent := recent - {c};
        todo := todo - {c};
      }
    }

    /** The order already placed with this id: this process's recent sends first, then
        the pending orders, the open positions and the history. */
    method FindClientOrder(id: string, now: nat, orders: Option<seq<Item>>, positions: Option<seq<Item>>,
                           history: Option<seq<Item>>)
      returns (found: Finding)
      modifies this
      ensures recent == Kept(old(recent), now)
      ensures found == Nothing <==>
        id !in recent && !Holds(Read(orders), id) && !Holds(Read(positions), id) && !Holds(Read(history), id)
      ensures found.RecentSend? ==> id in recent && found.item == recent[id].result
      ensures found.Listed? ==>
        && id !in recent && found.item.comment == id
        && (found.source.PendingOrders? ==> found.item in Read(orders))
        && (found.source.OpenPositions? ==> found.item in Read(positions) && !Holds(Read(orders), id))
        && (found.source.OrderHistory? ==> found.item in Read(history) && !Holds(Read(orders) + Read(positions), id))
    {
      ForgetOld(now);
      if id in recent {
        return RecentSend(recent[id].result);
      }
      var item := FindByComment(Read(orders), id);
      if item.Some? {
        return Listed(Mt5Session.PendingOrders, item.value);
      }
      item := FindByComment(Read(positions), id);
      if item.Some? {
        return Listed(Mt5Session.OpenPositions, item.value);
      }
      item := FindByComment(Read(history), id);
      if item.Some? {
        return Listed(Mt5Session.OrderHistory, item.value);
      }
      return Nothing;
    }

    /** Remember an accepted send, so that a retry replays it. */
    method Record(id: string, now: nat, accepted: bool, result: Item)
      modifies this
      ensures recent == if accepted then old(recent)[id := Sent(now, result)] else old(recent)
    {
      if accepted {
        recent := recent[id := Sent(now, result)];
      }
    }
  }

  /** The first entry with this comment. */
  method FindByComment(items: seq<Item>, id: string) returns (found: Option<Item>)
    ensures found == None <==> !Holds(items, id)
    ensures found.Some? ==> found.value.comment == id
    ensures found.Some? ==> exists i :: 0 <= i < |items| && items[i] == found.value && !Holds(items[..i], id)
  {
    var i := 0;
    while i < |items|
      invariant 0 <= i <= |items|
      invariant forall j :: 0 <= j < i ==> items[j].comment != id
    {
      if items[i].comment == id {
        return Some(items[i]);
      }
      i := i + 1;
    }
    return None;
  }

  // A broker list answers truthfully: it names exactly the orders its source lists.
  ghost predicate Truthful(s: Mt5Session.State, source: Mt5Session.Source, since: nat, answer: Option<seq<Item>>) {
    answer.Some? ==> forall id :: Holds(answer.value, id) <==> Mt5Session.Found(s, source, id, since)
  }

  ghost predicate InWindow(o: Mt5Session.Order, now: nat, skew: int) {
    o.pending || o.open || now - Mt5Session.LOOKBACK <= o.time + skew <= now + Mt5Session.SLACK
  }

  /** The search misses an order of this id exactly when the process does not remember it
      and every list that shows one of its orders went unanswered. */
  lemma SearchMissesIff(
      s: Mt5Session.State, recent: map<string, Sent>, id: string, now: nat,
      orders: Option<seq<Item>>, positions: Option<seq<Item>>, history: Option<seq<Item>>)
    requires Truthful(s, Mt5Session.PendingOrders, now, orders)
    requires Truthful(s, Mt5Session.OpenPositions, now, positions)
    requires Truthful(s, Mt5Session.OrderHistory, now, history)
    ensures
      (id !in recent && !Holds(Read(orders), id) && !Holds(Read(positions), id) && !Holds(Read(history), id))
      <==>
      (id !in recent && forall i ::
         0 <= i < |s.orders| && s.orders[i].comment == id && InWindow(s.orders[i], now, s.skew) ==>
         && (s.orders[i].pending ==> orders == None)
         && (s.orders[i].open ==> positions == None)
         && (Mt5Session.Listed(s.orders[i], Mt5Session.OrderHistory, now, s.skew) ==> history == None))
  {
    forall i | 0 <= i < |s.orders| && s.orders[i].comment == id
      ensures s.orders[i].pending ==> Mt5Session.Found(s, Mt5Session.PendingOrders, id, now)
      ensures s.orders[i].open ==> Mt5Session.Found(s, Mt5Session.OpenPositions, id, now)
      ensures Mt5Session.Listed(s.orders[i], Mt5Session.OrderHistory, now, s.skew) ==>
              Mt5Session.Found(s, Mt5Session.OrderHistory, id, now)
    {
    }
  }

  /** The lists of one search are read one after another. The pending orders as of one moment
      and the history as of a later one, both answered, show nothing with this id exactly when
      every order with it had left the pending ones by the first moment and is by the second
      one older than the window: what a send by id has to know. */
  lemma MissedIffCleared(
      s1: Mt5Session.State, s3: Mt5Session.State, id: string, now: nat, orders: seq<Item>, history: seq<Item>)
    requires ClientOrders.Ages(s1, s3) && ClientOrders.TimeInv(s3)
    requires s3.now <= now + Mt5Session.FIND_SECONDS && s3.skew + Mt5Session.FIND_SECONDS <= Mt5Session.SLACK
    requires Truthful(s1, Mt5Session.PendingOrders, now, Some(orders))
    requires Truthful(s3, Mt5Session.OrderHistory, now, Some(history))
    ensures !Holds(orders, id) && !Holds(history, id)
      <==> ClientOrders.NotPending(s1, id) && ClientOrders.Cleared(s3, id, now)
  {
    assert Holds(orders, id) <==> Mt5Session.Found(s1, Mt5Session.PendingOrders, id, now);
    assert Holds(history, id) <==> Mt5Session.Found(s3, Mt5Session.OrderHistory, id, now);
    if !Holds(orders, id) && !Holds(history, id) {
      forall i | 0 <= i < |s3.orders| && s3.orders[i].comment == id
        ensures !s1.orders[i].pending && !Mt5Session.Listed(s3.orders[i], Mt5Session.OrderHistory, now, s3.skew)
      {
        assert !Mt5Session.Listed(s1.orders[i], Mt5Session.PendingOrders, now, s1.skew);
      }
    }
  }
}
