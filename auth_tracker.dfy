/** The signed-in tracker: the FreelanceTracker's list together with the
    employer list and the collapsed-section flags, stored under the user's
    own keys. JSON.stringify and JSON.parse are given as a Codec. */
module AuthTracker {
  import opened Seqs
  import opened Ledger
  import opened Tracker
  import opened Storage

  const DefaultEmployers: seq<string> := ["Joe Mac", "Brian Oyaro"]

  /** Serialisation of the three stored values; a decoder answers None where
      JSON.parse throws. */
  datatype Codec = Codec(
    encodeOrders: seq<Order> -> string,
    decodeOrders: string -> Option<seq<Order>>,
    encodeEmployers: seq<string> -> string,
    decodeEmployers: string -> Option<seq<string>>,
    encodeSections: map<string, bool> -> string,
    decodeSections: string -> Option<map<string, bool>>)

  /** What JSON.stringify and JSON.parse do for these values: the text is
      never empty and parses back to the value. */
  ghost predicate RoundTrips(c: Codec)
  {
    && (forall x :: c.encodeOrders(x) != "" && c.decodeOrders(c.encodeOrders(x)) == Some(x))
    && (forall x :: c.encodeEmployers(x) != "" && c.decodeEmployers(c.encodeEmployers(x)) == Some(x))
    && (forall x :: c.encodeSections(x) != "" && c.decodeSections(c.encodeSections(x)) == Some(x))
  }

  /** The loaders: a missing or empty entry, or one that does not parse,
      gives the default. */
  function LoadOrDefault<T>(stored: Option<string>, decode: string -> Option<T>, default: T): (r: T)
    ensures stored.None? || stored == Some("") ==> r == default
    ensures stored.Some? && stored.value != "" && decode(stored.value).None? ==> r == default
    ensures stored.Some? && stored.value != "" && decode(stored.value).Some? ==> r == decode(stored.value).value
  {
    if stored.Some? && stored.value != "" then
      match decode(stored.value)
      case None => default
      case Some(v) => v
    else default
  }

  datatype ClearOutcome = Cleared | NotConfirmed | Dismissed

  class AuthenticatedTracker {
    const tracker: FreelanceTracker
    const data: UserDataManager
    var employers: seq<string>
    var collapsedSections: map<string, bool>

    constructor (tracker: FreelanceTracker, data: UserDataManager, employers: seq<string>, collapsedSections: map<string, bool>)
      ensures this.tracker == tracker && this.data == data
      ensures this.employers == employers && this.collapsedSections == collapsedSections
    {
      this.tracker := tracker;
      this.data := data;
      this.employers := employers;
      this.collapsedSections := collapsedSections;
    }

    function LoadOrders(codec: Codec): (r: seq<Order>)
      reads data.store
      ensures !Present(data.GetItem("orders")) ==> r == []
      ensures Present(data.GetItem("orders")) && codec.decodeOrders(data.GetItem("orders").value).None? ==> r == []
      ensures Present(data.GetItem("orders")) && codec.decodeOrders(data.GetItem("orders").value).Some? ==>
        r == codec.decodeOrders(data.GetItem("orders").value).value
    {
      LoadOrDefault(data.GetItem("orders"), codec.decodeOrders, [])
    }

    function LoadEmployers(codec: Codec): (r: seq<string>)
      reads data.store
      ensures !Present(data.GetItem("employers")) ==> r == DefaultEmployers
      ensures Present(data.GetItem("employers")) && codec.decodeEmployers(data.GetItem("employers").value).None? ==> r == DefaultEmployers
      ensures Present(data.GetItem("employers")) && codec.decodeEmployers(data.GetItem("employers").value).Some? ==>
        r == codec.decodeEmployers(data.GetItem("employers").value).value
    {
      LoadOrDefault(data.GetItem("employers"), codec.decodeEmployers, DefaultEmployers)
    }

    function LoadCollapsedSections(codec: Codec): (r: map<string, bool>)
      reads data.store
      ensures !Present(data.GetItem("collapsedSections")) ==> r == map[]
      ensures Present(data.GetItem("collapsedSections")) && codec.decodeSections(data.GetItem("collapsedSections").value).None? ==> r == map[]
      ensures Present(data.GetItem("collapsedSections")) && codec.decodeSections(data.GetItem("collapsedSections").value).Some? ==>
        r == codec.decodeSections(data.GetItem("collapsedSections").value).value
    {
      LoadOrDefault(data.GetItem("collapsedSections"), codec.decodeSections, map[])
    }

    method SaveOrders(codec: Codec)
      modifies data.store
      ensures data.store.items == old(data.store.items)[UserKey(data.userId, "orders") := codec.encodeOrders(tracker.orders)]
    {
      data.SetItem("orders", codec.encodeOrders(tracker.orders));
    }

    method SaveEmployers(codec: Codec)
      modifies data.store
      ensures data.store.items == old(data.store.items)[UserKey(data.userId, "employers") := codec.encodeEmployers(employers)]
    {
      data.SetItem("employers", codec.encodeEmployers(employers));
    }

    method SaveCollapsedSections(codec: Codec)
      modifies data.store
      ensures data.store.items == old(data.store.items)[UserKey(data.userId, "collapsedSections") := codec.encodeSections(collapsedSections)]
    {
      data.SetItem("collapsedSections", codec.encodeSections(collapsedSections));
    }

    /** Saves all three values; with a round-tripping codec every loader then
        returns what was saved. */
    method SaveAll(codec: Codec)
      modifies data.store
      ensures data.store.items == Saved(old(data.store.items), data.userId, codec, tracker.orders, employers, collapsedSections)
      ensures RoundTrips(codec) ==> LoadOrders(codec) == tracker.orders
      ensures RoundTrips(codec) ==> LoadEmployers(codec) == employers
      ensures RoundTrips(codec) ==> LoadCollapsedSections(codec) == collapsedSections
      ensures forall k :: k !in UserSavedKeys(data.userId) ==> Lookup(data.store.items, k) == Lookup(old(data.store.items), k)
    {
      SaveOrders(codec);
      SaveEmployers(codec);
      SaveCollapsedSections(codec);
      forall k | k !in UserSavedKeys(data.userId)
        ensures Lookup(data.store.items, k) == Lookup(old(data.store.items), k)
      {
        SavedSpec(old(data.store.items), data.userId, codec, tracker.orders, employers, collapsedSections, k);
      }
      SavedSpec(old(data.store.items), data.userId, codec, tracker.orders, employers, collapsedSections, "");
    }

    /** backup: the parsed file, None when it is not valid JSON. Orders and
        employers must both be truthy; after confirmation all three values
        are replaced, saved, and the list is rendered. */
    method RestoreFromFile(backup: Option<Backup>, confirmed: bool, codec: Codec) returns (outcome: RestoreOutcome)
      requires backup.Some? ==> !backup.value.orders.NotAList? && !backup.value.employers.NotAList?
      modifies this, tracker, data.store
      ensures outcome == FormatError <==> !(backup.Some? && backup.value.orders.List? && backup.value.employers.List?)
      ensures outcome == Restored <==> outcome != FormatError && confirmed
      ensures outcome == Restored ==>
        && tracker.orders == AfterRender(backup.value.orders.items, tracker.currentFilter)
        && data.store.items == Saved(old(data.store.items), data.userId, codec, backup.value.orders.items, employers, collapsedSections)
        && employers == backup.value.employers.items
        && collapsedSections == (if backup.value.collapsedSections.Some? then backup.value.collapsedSections.value else map[])
        && (RoundTrips(codec) ==>
              && LoadOrders(codec) == backup.value.orders.items
              && LoadEmployers(codec) == employers
              && LoadCollapsedSections(codec) == collapsedSections)
      ensures outcome != Restored ==>
        && tracker.orders == old(tracker.orders) && employers == old(employers)
        && collapsedSections == old(collapsedSections) && data.store.items == old(data.store.items)
      ensures tracker.currentFilter == old(tracker.currentFilter)
    {
      if backup.None? || !backup.value.orders.List? || !backup.value.employers.List? {
        return FormatError;
      }
      if !confirmed {
        return Declined;
      }
      var b := backup.value;
      tracker.orders := b.orders.items;
      employers := b.employers.items;
      collapsedSections := if b.collapsedSections.Some? then b.collapsedSections.value else map[];
      SaveAll(codec);
      var _ := tracker.RenderOrders();
      outcome := Restored;
    }

    /** answer: what the prompt returned, None when it was dismissed. Only the
        exact text DELETE clears; any other answer only warns. */
    method ClearAllData(answer: Option<string>, codec: Codec) returns (outcome: ClearOutcome)
      modifies this, tracker, data.store
      ensures outcome == Cleared <==> answer == Some("DELETE")
      ensures outcome == Dismissed <==> answer.None?
      ensures outcome == Cleared ==>
        && tracker.orders == [] && employers == DefaultEmployers && collapsedSections == map[]
        && data.store.items == Saved(old(data.store.items), data.userId, codec, [], DefaultEmployers, map[])
        && (RoundTrips(codec) ==>
              && LoadOrders(codec) == []
              && LoadEmployers(codec) == DefaultEmployers
              && LoadCollapsedSections(codec) == map[])
      ensures outcome != Cleared ==>
        && tracker.orders == old(tracker.orders) && employers == old(employers)
        && collapsedSections == old(collapsedSections) && data.store.items == old(data.store.items)
      ensures tracker.currentFilter == old(tracker.currentFilter)
    {
      if answer == Some("DELETE") {
        tracker.orders := [];
        employers := DefaultEmployers;
        collapsedSections := map[];
        SaveAll(codec);
        var _ := tracker.RenderOrders();
        outcome := Cleared;
      } else if answer.Some? {
        outcome := NotConfirmed;
      } else {
        outcome := Dismissed;
      }
    }
  }

  /** The storage after saveOrders, saveEmployers and saveCollapsedSections:
      the three encoded values under the user's keys, every other entry as
      it was. */
  function Saved(items: map<string, string>, userId: string, codec: Codec, orders: seq<Order>,
                 employers: seq<string>, collapsed: map<string, bool>): map<string, string>
  {
    items[UserKey(userId, "orders") := codec.encodeOrders(orders)]
         [UserKey(userId, "employers") := codec.encodeEmployers(employers)]
         [UserKey(userId, "collapsedSections") := codec.encodeSections(collapsed)]
  }

  /** Saving touches only the user's three entries, and with a round-tripping
      codec each loader reads back what was saved. */
  lemma SavedSpec(items: map<string, string>, userId: string, codec: Codec, orders: seq<Order>,
                  employers: seq<string>, collapsed: map<string, bool>, k: string)
    ensures k !in UserSavedKeys(userId) ==>
      Lookup(Saved(items, userId, codec, orders, employers, collapsed), k) == Lookup(items, k)
    ensures RoundTrips(codec) ==>
      var m := Saved(items, userId, codec, orders, employers, collapsed);
      && LoadOrDefault(Lookup(m, UserKey(userId, "orders")), codec.decodeOrders, []) == orders
      && LoadOrDefault(Lookup(m, UserKey(userId, "employers")), codec.decodeEmployers, DefaultEmployers) == employers
      && LoadOrDefault(Lookup(m, UserKey(userId, "collapsedSections")), codec.decodeSections, map[]) == collapsed
  {
    UserKeysDiffer(userId, "orders", "employers");
    UserKeysDiffer(userId, "orders", "collapsedSections");
    UserKeysDiffer(userId, "employers", "collapsedSections");
  }

  /** The three entries the tracker saves for a user. */
  function UserSavedKeys(userId: string): set<string>
  {
    {UserKey(userId, "orders"), UserKey(userId, "employers"), UserKey(userId, "collapsedSections")}
  }
}
