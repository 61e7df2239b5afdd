/**
 The event factory of the producer (`generate_event`).

 An event is the flat dictionary the producer hands to the channel. The
 values that come from Faker, the wall clock and `random.uniform` are
 parameters here; the one choice the factory makes itself, the event type,
 is an index into the fixed list of event types, as `random.choice` draws it.
 */
module Events {

  /** A value of the event dictionary: a string or the (already rounded) amount. */
  datatype Field = Text(s: string) | Number(x: real)

  /** The event types, in the order the source lists them. */
  const EventTypes: seq<string> := ["view", "add_to_cart", "purchase"]

  /** The keys of every event dictionary. */
  const EventKeys: set<string> := {"user_id", "event_type", "product", "timestamp", "amount"}

  type Event = map<string, Field>

  /**
   One call of `generate_event`. `choice` is the index `random.choice` drew
   from the event-type list, so it is a valid index of that list.
   */
  function GenerateEvent(userId: string, choice: nat, product: string, timestamp: string, amount: real): (e: Event)
    requires choice < |EventTypes|
    ensures e.Keys == EventKeys && |e| == 5
    ensures e["event_type"].Text? && e["event_type"].s in EventTypes
    ensures e["event_type"].s == EventTypes[choice]
    ensures e["user_id"] == Text(userId) && e["product"] == Text(product)
    ensures e["timestamp"] == Text(timestamp) && e["amount"] == Number(amount)
  {
    var e := map[
      "user_id" := Text(userId),
      "event_type" := Text(EventTypes[choice]),
      "product" := Text(product),
      "timestamp" := Text(timestamp),
      "amount" := Number(amount)
    ];
    assert e.Keys == EventKeys;
    e
  }

  /** The three event types are pairwise distinct strings. */
  lemma EventTypesDistinct()
    ensures forall i, j :: 0 <= i < j < |EventTypes| ==> EventTypes[i] != EventTypes[j]
  {
  }

  /**
   The event type of an event determines the index that was drawn, and every
   type in the list is produced by some draw: the factory's choice is a
   bijection between the draws and the three types.
   */
  lemma EventTypeChoiceIsBijective(userId: string, product: string, timestamp: string, amount: real)
    ensures forall i, j ::
      (0 <= i < |EventTypes| && 0 <= j < |EventTypes| &&
       GenerateEvent(userId, i, product, timestamp, amount)["event_type"] ==
       GenerateEvent(userId, j, product, timestamp, amount)["event_type"]) ==> i == j
    ensures forall t :: t in EventTypes ==>
      exists i :: 0 <= i < |EventTypes| && GenerateEvent(userId, i, product, timestamp, amount)["event_type"] == Text(t)
  {
    EventTypesDistinct();
    forall t | t in EventTypes
      ensures exists i :: 0 <= i < |EventTypes| && GenerateEvent(userId, i, product, timestamp, amount)["event_type"] == Text(t)
    {
      var i :| 0 <= i < |EventTypes| && EventTypes[i] == t;
      assert GenerateEvent(userId, i, product, timestamp, amount)["event_type"] == Text(t);
    }
  }
}
