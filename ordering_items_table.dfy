/**
 * The table of an ordering quiz's items: deleting an item by id, and the
 * text shown in the "Text" and "Correct Position" columns.
 */
module OrderingItemsTable {
  import opened Js
  import opened Lists
  import opened Types

  /** `handleDeleteOrderItem`: keep the items whose id differs. */
  function DeleteOrderItem(items: seq<OrderingItem>, id: string): (r: seq<OrderingItem>)
    ensures forall it :: it in r <==> it in items && it.id != id
  {
    Filter(items, (it: OrderingItem) => it.id != id)
  }

  /**
   * Every item with the id is gone, the others stay in their order, and
   * deleting an id that is not in the list changes nothing.
   */
  lemma DeleteOrderItemSpec(items: seq<OrderingItem>, id: string)
    ensures forall it :: it in DeleteOrderItem(items, id) ==> it.id != id
    ensures Subseq(DeleteOrderItem(items, id), items)
    ensures (forall i :: 0 <= i < |items| ==> items[i].id != id) ==> DeleteOrderItem(items, id) == items
  {
    FilterIsSubseq(items, (it: OrderingItem) => it.id != id);
    if forall i :: 0 <= i < |items| ==> items[i].id != id {
      FilterKeepsAll(items, (it: OrderingItem) => it.id != id);
    }
  }

  /** When ids are distinct, deleting the id of the item at `i` removes that one item. */
  lemma DeleteOneOfDistinct(items: seq<OrderingItem>, i: nat)
    requires i < |items|
    requires forall j, k :: 0 <= j < k < |items| ==> items[j].id != items[k].id
    ensures DeleteOrderItem(items, items[i].id) == items[..i] + items[i + 1..]
  {
    FilterRemovesOne(items, (it: OrderingItem) => it.id != items[i].id, i);
  }

  /** The "Correct Position" cell: -1 (and an empty value) are shown blank, any other number as is. */
  function PositionCell(correctPosition: Option<int>): (r: string)
    ensures r == "" <==> correctPosition == None || correctPosition == Some(-1)
  {
    match correctPosition
    case None => ""
    case Some(p) => if p == -1 then "" else IntToString(p)
  }

  /** The "Text" cell: the spelled-out word of the item. */
  function TextCell(item: OrderingItem): string
  {
    item.text.word
  }
}
