/**
 * The quiz editor of a lesson. It keeps the draft list of an ordering quiz's
 * items: editing an item takes it out of the list and loads it into the
 * form, confirming puts the form's item back at the end. It also builds the
 * request body for the three quiz kinds.
 */
module ActionQuizzModal {
  import opened Js
  import opened Lists
  import opened Types
  import opened OrderingItemsTable

  /** The five item fields of the quiz form; `text` is empty until a word is chosen. */
  datatype ItemForm = ItemForm(text: Option<Choice>, verbForm: Val, variation: Val, pos: Val, correctPosition: Option<int>)

  /**
   * The item fields after `resetFields`: no word, no forms or part of speech,
   * and the position field back at its initial value -1 ("unset").
   */
  const EmptyItemForm := ItemForm(None, Absent, Absent, Absent, Some(-1))

  /**
   * The editor's state: the draft items, the id of the item being edited
   * ("" for none), the item saved for regaining, and the item form.
   */
  datatype Draft = Draft(items: seq<OrderingItem>, currentOrderItemId: string, regain: Option<OrderingItem>, form: ItemForm)

  /** `new-${Date.now()}` for the clock reading `now`. */
  function FreshId(now: nat): (r: string)
    ensures Contains(r, "new")
  {
    PrefixContains("new", "-" + NatToString(now));
    assert "new" + ("-" + NatToString(now)) == "new-" + NatToString(now);
    "new-" + NatToString(now)
  }

  /** The word id an item refers to: `text._id || text.value`. */
  function TextRef(t: ItemText): Val
  {
    if Truthy(t.id) then t.id else t.value
  }

  /** The form contents `handleChangeOrderItem` loads for an item. */
  function FormOf(item: OrderingItem): ItemForm
  {
    ItemForm(Some(Choice(TextRef(item.text), item.text.word)), item.verbForm, item.variation, item.pos, item.correctPosition)
  }

  /** The item the form describes: `text` becomes `{word: label, ...text}`. */
  function ItemOf(id: string, form: ItemForm): OrderingItem
    requires form.text.Some?
  {
    OrderingItem(id, ItemText(Absent, form.text.value.value, form.text.value.caption),
                 form.verbForm, form.variation, form.pos, form.correctPosition)
  }

  /**
   * `handleAddOrderItem`: appends the form's item under the edited id, or a
   * fresh one, then resets the form, the edited id and the saved item. The
   * handler reads `text.label`, so a word must have been chosen.
   */
  function AddOrderItem(d: Draft, now: nat): Draft
    requires d.form.text.Some?
  {
    var id := if d.currentOrderItemId != "" then d.currentOrderItemId else FreshId(now);
    Draft(d.items + [ItemOf(id, d.form)], "", None, EmptyItemForm)
  }

  /**
   * `handleChangeOrderItem`: removes the item from the list, puts back the
   * item saved by an earlier edit, saves this one and loads it into the form.
   */
  function ChangeOrderItem(d: Draft, item: OrderingItem): Draft
  {
    var kept := DeleteOrderItem(d.items, item.id);
    Draft(if d.regain.Some? then kept + [d.regain.value] else kept, item.id, Some(item), FormOf(item))
  }

  predicate DistinctIds(items: seq<OrderingItem>)
  {
    forall j, k :: 0 <= j < k < |items| ==> items[j].id != items[k].id
  }

  /**
   * Confirming appends exactly one item at the end, under the edited id or
   * a fresh "new-" id, and clears the form, the edited id and the saved item.
   */
  lemma AddAppendsOne(d: Draft, now: nat)
    requires d.form.text.Some?
    ensures var r := AddOrderItem(d, now);
            |r.items| == |d.items| + 1 && r.items[..|d.items|] == d.items
            && (d.currentOrderItemId != "" ==> r.items[|d.items|].id == d.currentOrderItemId)
            && (d.currentOrderItemId == "" ==>
                  r.items[|d.items|].id == FreshId(now) && Contains(r.items[|d.items|].id, "new"))
            && TextCell(r.items[|d.items|]) == d.form.text.value.caption
            && r.items[|d.items|].correctPosition == d.form.correctPosition
            && r.currentOrderItemId == "" && r.regain.None?
            && r.form.text.None? && r.form.verbForm == r.form.variation == r.form.pos == Absent
            && r.form.correctPosition == Some(-1)
  {
  }

  /**
   * Starting an edit: no listed item keeps the edited id except a regained
   * one, the item is saved and its id recorded, and an item saved by an
   * earlier edit goes back at the end.
   */
  lemma ChangeRemovesAndRecords(d: Draft, item: OrderingItem)
    ensures var r := ChangeOrderItem(d, item);
            r.regain == Some(item) && r.currentOrderItemId == item.id && r.form == FormOf(item)
            && (d.regain.None? ==> r.items == DeleteOrderItem(d.items, item.id)
                                   && forall it :: it in r.items ==> it.id != item.id)
            && (d.regain.Some? ==> r.items == DeleteOrderItem(d.items, item.id) + [d.regain.value])
  {
  }

  /**
   * Switching from editing `a` to editing `b` loses no item: `a` is back in
   * the list, and the list holds every original item except `b`, which is
   * in the form.
   */
  lemma SwitchingEditsLosesNothing(d: Draft, a: OrderingItem, b: OrderingItem)
    requires d.regain.None? && DistinctIds(d.items)
    requires a in d.items && b in d.items && a.id != b.id
    ensures var r := ChangeOrderItem(ChangeOrderItem(d, a), b);
            r.regain == Some(b) && forall it :: it in d.items <==> it in r.items || it == b
  {
    var r := ChangeOrderItem(ChangeOrderItem(d, a), b);
    forall it | it in d.items
      ensures it in r.items || it == b
    {
      if it.id == a.id {
        SameIdSameItem(d.items, it, a);
      } else if it.id == b.id {
        SameIdSameItem(d.items, it, b);
      }
    }
  }

  lemma SameIdSameItem(items: seq<OrderingItem>, x: OrderingItem, y: OrderingItem)
    requires DistinctIds(items) && x in items && y in items && x.id == y.id
    ensures x == y
  {
    var i :| 0 <= i < |items| && items[i] == x;
    var j :| 0 <= j < |items| && items[j] == y;
    if i < j {
    } else if j < i {
    }
  }

  /**
   * Editing an item and confirming it without changes keeps the list's
   * length and ids: the other items stay in order, and the edited item moves
   * to the end with its id (an empty id, being falsy, is replaced by a fresh
   * one), word, referenced word id and other fields.
   */
  lemma EditThenConfirm(d: Draft, i: nat, now: nat)
    requires d.regain.None? && d.currentOrderItemId == "" && DistinctIds(d.items) && i < |d.items|
    ensures var item := d.items[i];
            var r := AddOrderItem(ChangeOrderItem(d, item), now);
            var moved := r.items[|r.items| - 1];
            |r.items| == |d.items|
            && r.items[..|r.items| - 1] == d.items[..i] + d.items[i + 1..]
            && moved.id == (if item.id != "" then item.id else FreshId(now))
            && TextCell(moved) == TextCell(item)
            && TextRef(moved.text) == TextRef(item.text)
            && moved.verbForm == item.verbForm && moved.variation == item.variation
            && moved.pos == item.pos && moved.correctPosition == item.correctPosition
  {
    var item := d.items[i];
    DeleteOneOfDistinct(d.items, i);
    var c := ChangeOrderItem(d, item);
    assert c.items == d.items[..i] + d.items[i + 1..];
  }

  // ---------------------------------------------------------- transfer body

  /** The quiz-level fields of the form; `quizzType` is the cascader's [type, detail] pair. */
  datatype QuizForm = QuizForm(
    title: Val,
    quizzType: seq<string>,
    questionTextEn: Val,
    questionTextVi: Val,
    explanation: Val,
    options: seq<Choice>,
    pairs: seq<Choice>,
    correctAnswerIndex: Option<int>)

  /** An ordering item as sent: `_id` only for server ids, `text` replaced by the word id. */
  datatype ItemBody = ItemBody(id: Option<string>, text: Val, verbForm: Val, variation: Val, pos: Val, correctPosition: Option<int>)

  datatype Variant =
    | Common
    | SingleChoice(options: seq<Val>, correctAnswerIndex: Option<int>)
    | Ordering(items: seq<ItemBody>)
    | Matching(pairs: seq<Val>, correctAnswerIndex: Option<int>)

  datatype TransferBody = TransferBody(
    title: Val,
    quizType: Val,
    typeDetail: Val,
    questionTextEn: Val,
    questionTextVi: Val,
    explanation: Val,
    id: Option<string>,
    variant: Variant)

  /** `xs[i]`, undefined past the end. */
  function At(xs: seq<string>, i: nat): Val
  {
    if i < |xs| then Str(xs[i]) else Absent
  }

  function ItemBodyOf(item: OrderingItem): ItemBody
  {
    ItemBody(if Contains(item.id, "new") then None else Some(item.id), TextRef(item.text),
             item.verbForm, item.variation, item.pos, item.correctPosition)
  }

  function ItemBodies(items: seq<OrderingItem>): (r: seq<ItemBody>)
    ensures |r| == |items| && forall i :: 0 <= i < |items| ==> r[i] == ItemBodyOf(items[i])
  {
    seq(|items|, i requires 0 <= i < |items| => ItemBodyOf(items[i]))
  }

  /** `getTransferBody`; `quizId` is the `_id` of the quiz being edited, if it has one. */
  function GetTransferBody(form: QuizForm, quizId: Val, items: seq<OrderingItem>): TransferBody
  {
    var kind := At(form.quizzType, 0);
    var variant :=
      if kind == Str("SINGLE_CHOICE_QUESTION") then SingleChoice(ChoiceValues(form.options), form.correctAnswerIndex)
      else if kind == Str("ORDERING_QUESTION") then Ordering(ItemBodies(items))
      else if kind == Str("MATCHING_QUESTION") then Matching(ChoiceValues(form.pairs), form.correctAnswerIndex)
      else Common;
    TransferBody(form.title, kind, At(form.quizzType, 1), form.questionTextEn, form.questionTextVi,
                 form.explanation, if Truthy(quizId) then Some(quizId.s) else None, variant)
  }

  /**
   * The body: type and detail are the cascader pair, `_id` is present exactly
   * when the edited quiz has one, and the variant fields follow the type:
   * option or pair ids with the answer index, or the items with "new" ids
   * stripped and each text turned into its word id.
   */
  lemma TransferBodySpec(form: QuizForm, quizId: Val, items: seq<OrderingItem>)
    requires |form.quizzType| == 2
    ensures var b := GetTransferBody(form, quizId, items);
            b.quizType == Str(form.quizzType[0]) && b.typeDetail == Str(form.quizzType[1])
            && b.title == form.title && b.explanation == form.explanation
            && (b.id.Some? <==> Truthy(quizId))
            && (form.quizzType[0] == "SINGLE_CHOICE_QUESTION" ==>
                  b.variant.SingleChoice? && |b.variant.options| == |form.options|
                  && (forall i :: 0 <= i < |form.options| ==> b.variant.options[i] == form.options[i].value)
                  && b.variant.correctAnswerIndex == form.correctAnswerIndex)
            && (form.quizzType[0] == "MATCHING_QUESTION" ==>
                  b.variant.Matching? && |b.variant.pairs| == |form.pairs|
                  && (forall i :: 0 <= i < |form.pairs| ==> b.variant.pairs[i] == form.pairs[i].value)
                  && b.variant.correctAnswerIndex == form.correctAnswerIndex)
            && (form.quizzType[0] == "ORDERING_QUESTION" ==>
                  b.variant.Ordering? && |b.variant.items| == |items|
                  && forall i :: 0 <= i < |items| ==>
                       (b.variant.items[i].id.None? <==> Contains(items[i].id, "new"))
                       && (b.variant.items[i].id.Some? ==> b.variant.items[i].id.value == items[i].id)
                       && b.variant.items[i].text == TextRef(items[i].text))
            && (form.quizzType[0] !in {"SINGLE_CHOICE_QUESTION", "ORDERING_QUESTION", "MATCHING_QUESTION"} ==>
                  b.variant.Common?)
  {
  }

  /** A fresh item confirmed from the form is sent without `_id`. */
  lemma FreshItemSentWithoutId(d: Draft, now: nat)
    requires d.form.text.Some? && d.currentOrderItemId == ""
    ensures var r := AddOrderItem(d, now);
            ItemBodyOf(r.items[|r.items| - 1]).id.None?
  {
  }

  /** The editor's state fields, updated in place by its handlers. */
  class QuizEditor {
    var items: seq<OrderingItem>
    var currentOrderItemId: string
    var regain: Option<OrderingItem>
    var form: ItemForm

    function State(): Draft
      reads this
    {
      Draft(items, currentOrderItemId, regain, form)
    }

    /** The editor opens on the quiz's items (none for a new quiz) with an empty form whose position is -1. */
    constructor (initialItems: seq<OrderingItem>)
      ensures State() == Draft(initialItems, "", None, EmptyItemForm)
      ensures form.text.None? && form.correctPosition == Some(-1)
    {
      items := initialItems;
      currentOrderItemId := "";
      regain := None;
      form := EmptyItemForm;
    }

    method HandleAddOrderItem(now: nat)
      requires form.text.Some?
      modifies this
      ensures State() == AddOrderItem(old(State()), now)
    {
      var id := if currentOrderItemId != "" then currentOrderItemId else FreshId(now);
      items := items + [ItemOf(id, form)];
      form := EmptyItemForm;
      currentOrderItemId := "";
      regain := None;
    }

    method HandleChangeOrderItem(item: OrderingItem)
      modifies this
      ensures State() == ChangeOrderItem(old(State()), item)
    {
      form := FormOf(item);
      var newItems := DeleteOrderItem(items, item.id);
      items := if regain.Some? then newItems + [regain.value] else newItems;
      regain := Some(item);
      currentOrderItemId := item.id;
    }

    /** `handleDeleteOrderItem`, passed down to the table. */
    method HandleDeleteOrderItem(id: string)
      modifies this
      ensures State() == old(State()).(items := DeleteOrderItem(old(items), id))
    {
      items := DeleteOrderItem(items, id);
    }
  }
}
