/**
 * The examples modal of a definition: loading an example row into the
 * example draft, the add-button test, and the confirm button, which saves
 * the definition's examples before closing.
 */
module ActionExamplesModal {
  import opened Js
  import opened Lists
  import opened Types
  import opened ActionWordModal
  import opened Definitions

  /** `{...prev, ...example}`: the row's keys win, a translation it lacks keeps the draft's. */
  function MergeExample(prev: Example, row: Example): Example
  {
    row.(translation := Over(prev.translation, row.translation))
  }

  /** The open definition and the example draft. */
  datatype ExampleEditing = ExampleEditing(selected: Definition, draft: Example)

  /**
   * `handleChangeExample`: a draft whose id lacks "new-" goes back from the
   * word (which may throw), then the row leaves the open definition and is
   * loaded into the draft.
   */
  function ChangeExample(e: ExampleEditing, word: Option<Word>, row: Example): Handled<ExampleEditing>
  {
    var regained := if !Contains(e.draft.id, "new-") then RegainExample(e.selected, word, e.draft.id) else Done(e.selected);
    match regained
    case Threw => Threw
    case Done(sel) => Done(ExampleEditing(DeleteExample(sel, row.id), MergeExample(e.draft, row)))
  }

  /**
   * Loading a row: the row leaves the open definition's examples, the draft
   * holds the row, the definition's other examples stay, and a draft that
   * is not client-made ("new-") is put back from the word's copy; only that
   * put-back can throw.
   */
  lemma ChangeExampleSpec(e: ExampleEditing, word: Option<Word>, row: Example)
    ensures ChangeExample(e, word, row).Threw? ==> !Contains(e.draft.id, "new-") && RegainExample(e.selected, word, e.draft.id).Threw?
    ensures Contains(e.draft.id, "new-") ==> ChangeExample(e, word, row).Done?
    ensures var r := ChangeExample(e, word, row);
            r.Done? ==>
              (!row.translation.Absent? ==> r.value.draft == row)
              && r.value.draft.id == row.id && r.value.draft.text == row.text
              && r.value.selected.id == e.selected.id
              && (forall x :: x in r.value.selected.examples ==> x.id != row.id)
              && (forall x :: x in e.selected.examples && x.id != row.id ==> x in r.value.selected.examples)
  {
    var regained := if !Contains(e.draft.id, "new-") then RegainExample(e.selected, word, e.draft.id) else Done(e.selected);
    if regained.Done? {
      RegainExampleSpec(e.selected, word, e.draft.id);
      DeleteExampleSpec(regained.value, row.id);
      assert forall x :: x in e.selected.examples ==> x in regained.value.examples;
    }
  }

  /**
   * The two editors disagree on what is client-made: the word editor
   * strips ids that hold "new" when it sends, this modal regains ids that
   * lack "new-"; an id such as "renew" is both sent as-is and looked up in
   * the word. Every id from `generateId` is client-made to both.
   */
  lemma ClientMadeTests(random: string, now: nat)
    ensures Contains(GenerateId(random, now), "new-") && Contains(GenerateId(random, now), "new")
    ensures Contains("renew", "new") && !Contains("renew", "new-")
  {
    assert "renew" == "re" + "new";
    assert "renew"[1..] == "enew" && "enew"[1..] == "new";
    assert "renew"[2..] == "new";
    ShortNoContains("new", "new-");
    assert "enew"[..4][0] == 'e' && "renew"[..4][0] == 'r';
    assert "renew"[..3] != "new";
    assert IsPrefix("new", "renew"[2..]);
  }

  lemma {:induction false} ShortNoContains(s: string, sub: string)
    requires |s| < |sub|
    ensures !Contains(s, sub)
    decreases |s|
  {
    if s != [] {
      ShortNoContains(s[1..], sub);
    }
  }

  /** The add button: every key of the draft holds a string whose trimmed text is not empty. */
  predicate CanAddExample(d: Example)
  {
    d.id != "" && !IsBlank(d.id) && d.text != "" && !IsBlank(d.text)
    && (d.translation.Absent? || (Truthy(d.translation) && !IsBlank(d.translation.s)))
  }

  /** A blank text or a null, empty or blank translation keeps the button disabled; a missing translation does not. */
  lemma CanAddExampleSpec(d: Example)
    ensures IsBlank(d.text) ==> !CanAddExample(d)
    ensures d.translation == Null || d.translation == Str("") || d.translation == Str(" ") ==> !CanAddExample(d)
    ensures CanAddExample(d) ==> CanAddExample(d.(translation := Absent))
  {
    assert IsBlank(" ") by { assert TrimStart(" ") == ""; }
  }

  /** A draft with an id and a text but no translation can be added. */
  lemma CanAddWithoutTranslation(id: string, text: string)
    requires id != "" && !IsSpace(id[0]) && text != "" && !IsSpace(text[0])
    ensures CanAddExample(Example(id, text, Absent))
  {
    BlankIffAllSpace(id);
    BlankIffAllSpace(text);
  }

  /** What the confirm button does, in order. */
  datatype Effect = SaveExamples(body: ExamplesBody) | CloseModal

  /** `onOk`: await the examples' save, then close. */
  function OnOk(selected: Definition): (r: seq<Effect>)
    ensures |r| == 2
  {
    [SaveExamples(ExamplesBodyOf(selected)), CloseModal]
  }

  /** The modal closes only after the save of exactly the open definition's examples. */
  lemma OnOkSavesThenCloses(selected: Definition)
    ensures OnOk(selected)[0].SaveExamples? && OnOk(selected)[1] == CloseModal
    ensures OnOk(selected)[0].body.definitionId == selected.id
    ensures |OnOk(selected)[0].body.examples| == |selected.examples|
  {
  }

  /** The modal's draft together with the definition it edits. */
  class ExamplesEditor {
    var selected: Definition
    var draft: Example

    constructor (def: Definition, blank: Example)
      ensures selected == def && draft == blank
    {
      selected := def;
      draft := blank;
    }

    /** Reports whether the handler threw; a throw leaves the state unchanged. */
    method HandleChangeExample(word: Option<Word>, row: Example) returns (threw: bool)
      modifies this
      ensures var r := ChangeExample(ExampleEditing(old(selected), old(draft)), word, row);
              (threw <==> r.Threw?) && (r.Done? ==> ExampleEditing(selected, draft) == r.value)
              && (r.Threw? ==> selected == old(selected) && draft == old(draft))
    {
      if !Contains(draft.id, "new-") {
        var regained := RegainExample(selected, word, draft.id);
        if regained.Threw? {
          return true;
        }
        selected := regained.value;
      }
      selected := DeleteExample(selected, row.id);
      draft := MergeExample(draft, row);
      threw := false;
    }

    method HandleChangeNewExample(text: Option<string>, translation: Val)
      modifies this
      ensures draft == old(draft).(text := if text.Some? then text.value else old(draft).text,
                                   translation := Over(old(draft.translation), translation))
      ensures selected == old(selected)
    {
      if text.Some? {
        draft := draft.(text := text.value);
      }
      draft := draft.(translation := Over(draft.translation, translation));
    }
  }
}
