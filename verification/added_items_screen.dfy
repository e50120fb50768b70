/** The added-items screen: the vendor's items loaded once from the server, and
    the delete action that, once confirmed and carried out, drops the item
    from the list by its id. */
module AddedItemsScreen {
  import opened Common
  import opened Records
  import opened Lists
  import opened Session

  /** The two buttons of the delete confirmation dialog. */
  datatype Choice = Cancel | Delete

  /** The items screen's state. */
  class AddedItems {
    var items: seq<Item>
    var loading: bool

    constructor ()
      ensures items == [] && loading
    {
      items := [];
      loading := true;
    }

    /** `loadItems`: replaces the list with the fetched one when the fetch
        succeeds, keeps it otherwise, and always clears `loading`. */
    method LoadItems(storage: Storage, reply: Reply<seq<Item>>) returns (effects: seq<Effect>)
      modifies this
      ensures effects == FetchItems(storage.items, reply).effects
      ensures var r := FetchItems(storage.items, reply).result;
              items == if r.Success? then r.value.data else old(items)
      ensures !loading
    {
      var c := FetchItems(storage.items, reply);
      effects := c.effects;
      if c.result.Success? {
        items := c.result.value.data;
      }
      loading := false;
    }

    /** `handleDelete`: the delete call is made only when the vendor picks
        Delete; `deleteSucceeds` is that external call's outcome. Only a
        successful delete filters the list. */
    method HandleDelete(id: string, choice: Choice, deleteSucceeds: bool) returns (deleteCalled: bool)
      modifies this
      ensures deleteCalled <==> choice == Delete
      ensures items == if deleteCalled && deleteSucceeds then RemoveById(old(items), ItemId, id) else old(items)
      ensures loading == old(loading)
    {
      deleteCalled := choice == Delete;
      if deleteCalled && deleteSucceeds {
        items := RemoveById(items, ItemId, id);
      }
    }
  }

  /** A successful delete removes exactly the items with that id, the others
      keeping their order, and a repeated delete of the same id removes nothing more. */
  lemma DeleteRemovesExactly(items: seq<Item>, id: string, before: seq<Item>, after: seq<Item>)
    requires items == before + after
    ensures forall i :: i in RemoveById(items, ItemId, id) <==> i in items && i.id != id
    ensures RemoveById(items, ItemId, id) == RemoveById(before, ItemId, id) + RemoveById(after, ItemId, id)
    ensures RemoveById(RemoveById(items, ItemId, id), ItemId, id) == RemoveById(items, ItemId, id)
  {
    RemoveByIdConcat(before, after, ItemId, id);
    RemoveByIdIdempotent(items, ItemId, id);
  }

  /** With unique ids, deleting a listed item shortens the list by exactly one. */
  lemma DeleteListedItem(items: seq<Item>, k: nat)
    requires UniqueIds(items, ItemId) && k < |items|
    ensures |RemoveById(items, ItemId, items[k].id)| == |items| - 1
    ensures items[k] !in RemoveById(items, ItemId, items[k].id)
  {
    RemoveUniqueId(items, ItemId, k);
  }
}
