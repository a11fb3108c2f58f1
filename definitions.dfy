/**
 * The definitions panel of the word editor: loading a table row into the
 * definition draft (the row leaves the table and the previous draft, if it
 * came from the word, goes back), the save-button test, and the example
 * list of the definition opened in the examples modal.
 */
module Definitions {
  import opened Js
  import opened Lists
  import opened Types
  import opened ActionWordModal

  /** `{...prev, ...obj}` for a table row: the row's keys win, optional keys it lacks keep the draft's values. */
  function MergeDefinition(prev: Definition, obj: Definition): Definition
  {
    Definition(obj.id, obj.pos, Over(prev.source, obj.source), Over(prev.text, obj.text),
               Over(prev.translation, obj.translation), Over(prev.contextualMeaning, obj.contextualMeaning),
               obj.examples)
  }

  /** The definition draft with the table it was taken from. */
  datatype Editing = Editing(draft: Definition, table: Option<seq<Definition>>)

  /** `handleUpdateDef`: put a draft that came from the word back, load the row, take the row out of the table. */
  function UpdateDef(e: Editing, word: Option<Word>, obj: Definition): Editing
  {
    var regained := if !Contains(e.draft.id, "new") then Regain(e.table, Defs(word), DefId, e.draft.id) else e.table;
    Editing(MergeDefinition(e.draft, obj), RemoveTemp(regained, DefId, obj.id))
  }

  /**
   * Loading a row edits it in the draft and removes it from the table: the
   * draft takes the row's keys (all of it when no optional key is missing),
   * no entry with the row's id stays in the table, every other entry stays,
   * and a draft that came from the word (its id without "new") is restored
   * from the word's own copy, while a client draft is dropped.
   */
  lemma UpdateDefSpec(e: Editing, word: Option<Word>, obj: Definition)
    ensures var r := UpdateDef(e, word, obj);
            r.draft.id == obj.id && r.draft.pos == obj.pos && r.draft.examples == obj.examples
            && (!obj.source.Absent? && !obj.text.Absent? && !obj.translation.Absent? && !obj.contextualMeaning.Absent? ==>
                  r.draft == obj)
            && (obj.contextualMeaning.Absent? ==> r.draft.contextualMeaning == e.draft.contextualMeaning)
            && (r.table.Some? ==> forall d :: d in r.table.value ==> d.id != obj.id)
            && (e.table.Some? ==> r.table.Some? && forall d :: d in e.table.value && d.id != obj.id ==> d in r.table.value)
            && (Contains(e.draft.id, "new") ==> r.table == RemoveTemp(e.table, DefId, obj.id))
    ensures forall i :: word.Some? && !Contains(e.draft.id, "new") && e.draft.id != obj.id
                        && 0 <= i < |word.value.definition| && word.value.definition[i].id == e.draft.id
                        && (forall j :: 0 <= j < i ==> word.value.definition[j].id != e.draft.id)
              ==> UpdateDef(e, word, obj).table.Some? && word.value.definition[i] in UpdateDef(e, word, obj).table.value
  {
    var regained := if !Contains(e.draft.id, "new") then Regain(e.table, Defs(word), DefId, e.draft.id) else e.table;
    if !Contains(e.draft.id, "new") {
      RegainSpec(e.table, Defs(word), DefId, e.draft.id);
      if e.table.Some? && regained != e.table {
        assert regained.value == e.table.value + [regained.value[|regained.value| - 1]];
        assert forall d :: d in e.table.value ==> d in regained.value;
      }
    }
    RemoveTempSpec(regained, DefId, obj.id);
  }

  /** A key of the draft passes the save test when it is missing or holds a non-empty string; spaces pass. */
  predicate FieldFilled(v: Val)
  {
    v.Absent? || Truthy(v)
  }

  /** The "save definition" button: every key but the examples is filled, and no save is running. */
  predicate CanSaveDefinition(d: Definition, confirmLoading: bool)
  {
    d.id != "" && d.pos != "" && FieldFilled(d.source) && FieldFilled(d.text)
    && FieldFilled(d.translation) && FieldFilled(d.contextualMeaning) && !confirmLoading
  }

  /**
   * The test ignores the examples and blocks while a save runs; a null or
   * empty key blocks, a key of spaces does not (nothing is trimmed here).
   */
  lemma CanSaveDefinitionSpec(d: Definition, xs: seq<Example>)
    ensures CanSaveDefinition(d.(examples := xs), false) == CanSaveDefinition(d, false)
    ensures !CanSaveDefinition(d, true)
    ensures d.text == Null || d.text == Str("") ==> !CanSaveDefinition(d, false)
    ensures CanSaveDefinition(Definition("d1", "noun", Absent, Str(" "), Absent, Absent, []), false)
  {
  }

  // -------------------------------------------------------------- examples

  /** `handleDeleteExample` on the definition open in the examples modal. */
  function DeleteExample(sel: Definition, eid: string): Definition
  {
    sel.(examples := Filter(sel.examples, (x: Example) => x.id != eid))
  }

  /** A handler either finishes with a new value or throws, leaving the state as it was. */
  datatype Handled<T> = Threw | Done(value: T)

  /**
   * `handleRegainExample`: the word's copy of the example goes back at the
   * end of the open definition's examples. Without a current word nothing
   * happens; when the word lacks the open definition the handler throws.
   */
  function RegainExample(sel: Definition, word: Option<Word>, eid: string): Handled<Definition>
  {
    match word
    case None => Done(sel)
    case Some(w) =>
      var def := Find(w.definition, (d: Definition) => d.id == sel.id);
      if def.None? then Threw
      else
        var ex := Find(def.value.examples, (x: Example) => x.id == eid);
        if ex.None? then Done(sel) else Done(sel.(examples := sel.examples + [ex.value]))
  }

  /** `handleUpdateExample`: the typed example goes last and the box resets to an empty example with a fresh id. */
  function AddExample(sel: Definition, newExample: Example, freshId: string): (Definition, Example)
  {
    (sel.(examples := sel.examples + [newExample]), Example(freshId, "", Str("")))
  }

  /** Deleting an example removes every example with the id and keeps the rest in order; nothing else of the definition changes. */
  lemma DeleteExampleSpec(sel: Definition, eid: string)
    ensures var r := DeleteExample(sel, eid);
            r.(examples := sel.examples) == sel
            && (forall x :: x in r.examples <==> x in sel.examples && x.id != eid)
            && Subseq(r.examples, sel.examples)
  {
    FilterIsSubseq(sel.examples, (x: Example) => x.id != eid);
  }

  /**
   * Regaining an example the word holds for the open definition appends the
   * word's copy; it throws exactly when there is a word that lacks the open
   * definition, and otherwise changes nothing when the example is unknown.
   */
  lemma RegainExampleSpec(sel: Definition, word: Option<Word>, eid: string)
    ensures RegainExample(sel, word, eid).Threw? <==>
              word.Some? && forall i :: 0 <= i < |word.value.definition| ==> word.value.definition[i].id != sel.id
    ensures word.None? ==> RegainExample(sel, word, eid) == Done(sel)
    ensures RegainExample(sel, word, eid).Done? ==>
              RegainExample(sel, word, eid) == Done(sel)
              || exists x: Example :: x.id == eid && RegainExample(sel, word, eid) == Done(sel.(examples := sel.examples + [x]))
  {
  }

  /** Deleting an example and regaining it gives the open definition its examples back, up to order. */
  lemma DeleteThenRegainExample(sel: Definition, w: Word, k: nat, x: Example)
    requires k < |w.definition| && w.definition[k].id == sel.id
    requires forall j :: 0 <= j < k ==> w.definition[j].id != sel.id
    requires x in sel.examples && x in w.definition[k].examples
    requires forall y :: y in sel.examples && y.id == x.id ==> y == x
    requires forall y :: y in w.definition[k].examples && y.id == x.id ==> y == x
    ensures var r := RegainExample(DeleteExample(sel, x.id), Some(w), x.id);
            r.Done? && forall y :: y in r.value.examples <==> y in sel.examples
  {
    var def := Find(w.definition, (d: Definition) => d.id == sel.id);
    assert def == Some(w.definition[k]);
    var ex := Find(w.definition[k].examples, (y: Example) => y.id == x.id);
    assert ex.Some?;
    DeleteExampleSpec(sel, x.id);
  }

  /** Adding appends exactly the typed example and hands back an empty draft. */
  lemma AddExampleSpec(sel: Definition, newExample: Example, random: string, now: nat)
    ensures var (r, box) := AddExample(sel, newExample, GenerateId(random, now));
            r.examples == sel.examples + [newExample] && r.id == sel.id
            && box.text == "" && box.translation == Str("") && IsPrefix("new-", box.id)
  {
  }

  // ------------------------------------------------------------------ state

  /** The panel's state and the draft and table it shares with the word editor. */
  class DefinitionsPanel {
    var draft: Definition
    var table: Option<seq<Definition>>
    var selected: Definition
    var newExample: Example
    var examplesModalOpen: bool

    constructor (start: Definition, rows: Option<seq<Definition>>, blank: Example)
      ensures draft == start && table == rows && selected == start && newExample == blank && !examplesModalOpen
    {
      draft := start;
      table := rows;
      selected := start;
      newExample := blank;
      examplesModalOpen := false;
    }

    method HandleUpdateDef(word: Option<Word>, obj: Definition)
      modifies this
      ensures Editing(draft, table) == UpdateDef(Editing(old(draft), old(table)), word, obj)
      ensures selected == old(selected) && newExample == old(newExample) && examplesModalOpen == old(examplesModalOpen)
    {
      if !Contains(draft.id, "new") {
        table := Regain(table, Defs(word), DefId, draft.id);
      }
      draft := MergeDefinition(draft, obj);
      table := RemoveTemp(table, DefId, obj.id);
    }

    method HandleOpenExamplesModal(def: Definition)
      modifies this
      ensures examplesModalOpen && selected == def
      ensures draft == old(draft) && table == old(table) && newExample == old(newExample)
    {
      examplesModalOpen := true;
      selected := def;
    }

    method HandleCancelExamplesModal()
      modifies this
      ensures !examplesModalOpen
      ensures draft == old(draft) && table == old(table) && selected == old(selected) && newExample == old(newExample)
    {
      examplesModalOpen := false;
    }

    method HandleDeleteExample(eid: string)
      modifies this
      ensures selected == DeleteExample(old(selected), eid)
      ensures draft == old(draft) && table == old(table) && newExample == old(newExample) && examplesModalOpen == old(examplesModalOpen)
    {
      selected := DeleteExample(selected, eid);
    }

    /** Reports whether the handler threw; a throw leaves the state unchanged. */
    method HandleRegainExample(word: Option<Word>, eid: string) returns (threw: bool)
      modifies this
      ensures threw <==> RegainExample(old(selected), word, eid).Threw?
      ensures !threw ==> selected == RegainExample(old(selected), word, eid).value
      ensures threw ==> selected == old(selected)
      ensures draft == old(draft) && table == old(table) && newExample == old(newExample) && examplesModalOpen == old(examplesModalOpen)
    {
      var r := RegainExample(selected, word, eid);
      threw := r.Threw?;
      if !threw {
        selected := r.value;
      }
    }

    method HandleUpdateExample(random: string, now: nat)
      modifies this
      ensures (selected, newExample) == AddExample(old(selected), old(newExample), GenerateId(random, now))
      ensures draft == old(draft) && table == old(table) && examplesModalOpen == old(examplesModalOpen)
    {
      selected := selected.(examples := selected.examples + [newExample]);
      newExample := Example(GenerateId(random, now), "", Str(""));
    }
  }
}
