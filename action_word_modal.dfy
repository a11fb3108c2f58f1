/**
 * The word editor: the synonym, antonym and verb lists with their input
 * boxes, the pronunciation and definition tables with their take-out and
 * regain handlers, and the request bodies that drop the `_id` of
 * client-made "new" records.
 */
module ActionWordModal {
  import opened Js
  import opened Lists
  import opened Types
  import AppSlice
  import Json

  /**
   * The message key of the modal's title: adding for a "new" id, the word
   * of the day when no word is open or the open word carries `isToday`,
   * updating otherwise.
   */
  function ModalTitle(current: Option<Word>): string
  {
    if current.Some? && Contains(current.value.id, "new") then "add-new-word"
    else if current.None? || current.value.isToday then "today-word"
    else "update-word"
  }

  // ------------------------------------------------------ synonyms, antonyms

  /** A list of terms with the text box that feeds it. */
  datatype Terms = Terms(items: seq<string>, input: string)

  /** `handleAddSynonym` / `handleAddAntonym`: add a non-empty term that is not listed yet, then clear the box. */
  function AddTerm(t: Terms): Terms
  {
    if t.input != "" && t.input !in t.items then Terms(t.items + [t.input], "") else t
  }

  /** `handleDeleteSynonym` / `handleDeleteAntonym`. */
  function DeleteTerm(items: seq<string>, term: string): seq<string>
  {
    Filter(items, (x: string) => x != term)
  }

  predicate NoDuplicates(items: seq<string>)
  {
    forall i, j :: 0 <= i < j < |items| ==> items[i] != items[j]
  }

  /**
   * A term is added exactly when it is non-empty and not yet listed, and the
   * box is cleared exactly then; so the list never holds a term twice.
   */
  lemma AddTermSpec(t: Terms)
    ensures var r := AddTerm(t);
            (t.input != "" && t.input !in t.items ==> r.items == t.items + [t.input] && r.input == "")
            && (t.input == "" || t.input in t.items ==> r == t)
            && (NoDuplicates(t.items) ==> NoDuplicates(r.items))
  {
  }

  /**
   * The handler tests only for "", so any non-empty term made of white space
   * that is not listed yet is added by Enter, although the button, which
   * trims, is disabled for it.
   */
  lemma {:induction false} BlankTermAccepted(t: Terms)
    requires t.input != "" && t.input !in t.items
    requires forall i :: 0 <= i < |t.input| ==> IsSpace(t.input[i])
    ensures IsBlank(t.input)
    ensures AddTerm(t).items == t.items + [t.input] && AddTerm(t).input == ""
  {
    BlankIffAllSpace(t.input);
  }

  /** Deleting removes every copy of the term and nothing else; it undoes an add. */
  lemma DeleteTermSpec(t: Terms, term: string)
    ensures forall x :: x in DeleteTerm(t.items, term) <==> x in t.items && x != term
    ensures Subseq(DeleteTerm(t.items, term), t.items)
    ensures t.input != "" && t.input !in t.items ==> DeleteTerm(AddTerm(t).items, t.input) == t.items
  {
    FilterIsSubseq(t.items, (x: string) => x != term);
    if t.input != "" && t.input !in t.items {
      FilterAppend(t.items, [t.input], (x: string) => x != t.input);
      FilterKeepsAll(t.items, (x: string) => x != t.input);
      assert Filter([t.input], (x: string) => x != t.input) == [];
    }
  }

  // ------------------------------------------------------------------ verbs

  function LowerTypes(verbs: seq<Verb>): (r: seq<string>)
    ensures |r| == |verbs| && forall i :: 0 <= i < |verbs| ==> r[i] == ToLower(verbs[i].verbType)
  {
    seq(|verbs|, i requires 0 <= i < |verbs| => ToLower(verbs[i].verbType))
  }

  /** The verb list with its two input boxes. */
  datatype Verbs = Verbs(items: seq<Verb>, input: Verb)

  /** `handleAddVerb`: add unless a listed verb has the same type ignoring case, then clear the boxes. */
  function AddVerb(v: Verbs): Verbs
  {
    if ToLower(v.input.verbType) !in LowerTypes(v.items) then Verbs(v.items + [v.input], Verb("", "")) else v
  }

  /** No two verbs have the same type ignoring case. */
  predicate DistinctTypes(verbs: seq<Verb>)
  {
    forall i, j :: 0 <= i < j < |verbs| ==> ToLower(verbs[i].verbType) != ToLower(verbs[j].verbType)
  }

  /** A verb is added exactly when its type is new ignoring case, so types stay distinct ignoring case. */
  lemma AddVerbSpec(v: Verbs)
    ensures var r := AddVerb(v);
            (r.items == v.items + [v.input] && r.input == Verb("", "")
              <== forall i :: 0 <= i < |v.items| ==> ToLower(v.items[i].verbType) != ToLower(v.input.verbType))
            && ((exists i :: 0 <= i < |v.items| && ToLower(v.items[i].verbType) == ToLower(v.input.verbType)) ==> r == v)
            && (DistinctTypes(v.items) ==> DistinctTypes(r.items))
  {
    if exists i :: 0 <= i < |v.items| && ToLower(v.items[i].verbType) == ToLower(v.input.verbType) {
      var i :| 0 <= i < |v.items| && ToLower(v.items[i].verbType) == ToLower(v.input.verbType);
      assert LowerTypes(v.items)[i] == ToLower(v.input.verbType);
    }
  }

  /** The list entry of a verb, `${type}: ${text}`, which the delete button hands back. */
  function VerbLabel(v: Verb): string
  {
    v.verbType + ": " + v.text
  }

  /** `handleDeleteVerb` as written: re-reads the type from the label, up to its first ":". */
  function DeleteVerbByLabel(verbs: seq<Verb>, entry: string): seq<Verb>
  {
    var t := Split(entry, ':')[0];
    Filter(verbs, (x: Verb) => x.verbType != t)
  }

  /** Deleting by the entry's own type, as the handler intends. */
  function DeleteVerbOfType(verbs: seq<Verb>, verbType: string): seq<Verb>
  {
    Filter(verbs, (x: Verb) => x.verbType != verbType)
  }

  /** Deleting by type removes every verb of that type and keeps the others in order. */
  lemma DeleteVerbOfTypeSpec(verbs: seq<Verb>, verbType: string)
    ensures forall x :: x in DeleteVerbOfType(verbs, verbType) <==> x in verbs && x.verbType != verbType
    ensures Subseq(DeleteVerbOfType(verbs, verbType), verbs)
  {
    FilterIsSubseq(verbs, (x: Verb) => x.verbType != verbType);
  }

  /** When the type holds no ":", the label gives the type back, so the handler as written deletes the right verbs. */
  lemma LabelGivesTypeBack(verbs: seq<Verb>, v: Verb)
    requires ':' !in v.verbType
    ensures Split(VerbLabel(v), ':')[0] == v.verbType
    ensures DeleteVerbByLabel(verbs, VerbLabel(v)) == DeleteVerbOfType(verbs, v.verbType)
  {
    var tail := ": " + v.text;
    assert VerbLabel(v) == v.verbType + tail;
    SplitPrefix(v.verbType, tail, ':');
    assert tail[0] == ':';
    assert Split(tail, ':')[0] == "";
    assert v.verbType + "" == v.verbType;
  }

  /** A verb whose type holds ":" cannot be deleted by the handler as written. */
  lemma ColonInTypeBlocksDelete()
    ensures var v := Verb("a:b", "x");
            DeleteVerbByLabel([v], VerbLabel(v)) == [v] && DeleteVerbOfType([v], v.verbType) == []
  {
    var v := Verb("a:b", "x");
    assert VerbLabel(v) == "a" + ":b: x";
    SplitPrefix("a", ":b: x", ':');
    assert ":b: x"[0] == ':';
    assert Split(":b: x", ':')[0] == "";
    assert "a" + "" == "a";
    assert Split(VerbLabel(v), ':')[0] == "a";
    assert Filter([v], (x: Verb) => x.verbType != "a") == [v] + Filter([v][1..], (x: Verb) => x.verbType != "a");
    assert Filter([v], (x: Verb) => x.verbType != "a:b") == Filter([v][1..], (x: Verb) => x.verbType != "a:b");
  }

  // ------------------------------------------- pronunciation and definition tables

  /** `prev?.filter(x => x._id !== id)`: an undefined table stays undefined. */
  function RemoveTemp<T>(xs: Option<seq<T>>, id: T -> string, x: string): Option<seq<T>>
  {
    match xs
    case None => None
    case Some(s) => Some(Filter(s, (t: T) => id(t) != x))
  }

  /**
   * `handleRegainPron` / `handleRegainDef`: the current word's original with
   * the id goes back at the end (an undefined table becomes that one entry);
   * without such an original nothing changes.
   */
  function Regain<T>(xs: Option<seq<T>>, originals: Option<seq<T>>, id: T -> string, x: string): Option<seq<T>>
  {
    var found := if originals.Some? then Find(originals.value, (t: T) => id(t) == x) else None;
    if found.None? then xs else Some(xs.UnwrapOr([]) + [found.value])
  }

  function PronId(p: Pronunciation): string { p.id }
  function DefId(d: Definition): string { d.id }

  function Prons(w: Option<Word>): Option<seq<Pronunciation>>
  {
    if w.Some? then Some(w.value.pronunciation) else None
  }

  function Defs(w: Option<Word>): Option<seq<Definition>>
  {
    if w.Some? then Some(w.value.definition) else None
  }

  /** Taking an entry out of a table removes every entry with its id and nothing else. */
  lemma RemoveTempSpec<T>(xs: Option<seq<T>>, id: T -> string, x: string)
    ensures RemoveTemp(xs, id, x).Some? <==> xs.Some?
    ensures xs.Some? ==> forall t :: t in RemoveTemp(xs, id, x).value <==> t in xs.value && id(t) != x
  {
  }

  /** Regaining appends the first original with the id, and does nothing when there is none. */
  lemma RegainSpec<T>(xs: Option<seq<T>>, originals: Option<seq<T>>, id: T -> string, x: string)
    ensures (originals.None? || forall i :: 0 <= i < |originals.value| ==> id(originals.value[i]) != x)
              ==> Regain(xs, originals, id, x) == xs
    ensures forall i :: originals.Some? && 0 <= i < |originals.value| && id(originals.value[i]) == x
                        && (forall j :: 0 <= j < i ==> id(originals.value[j]) != x)
              ==> Regain(xs, originals, id, x) == Some(xs.UnwrapOr([]) + [originals.value[i]])
  {
    if originals.Some? {
      forall i | 0 <= i < |originals.value| && id(originals.value[i]) == x
                 && (forall j :: 0 <= j < i ==> id(originals.value[j]) != x)
        ensures Regain(xs, originals, id, x) == Some(xs.UnwrapOr([]) + [originals.value[i]])
      {
        var f := Find(originals.value, (t: T) => id(t) == x);
        var k :| 0 <= k < |originals.value| && originals.value[k] == f.value && id(originals.value[k]) == x
                 && forall j :: 0 <= j < k ==> id(originals.value[j]) != x;
        assert k == i;
      }
    }
  }

  /**
   * Regain undoes a take-out: when the table holds the word's original
   * entry for the id, and that is the only entry with the id in both lists,
   * taking it out and regaining it leaves the same entries in the table.
   */
  lemma RegainUndoesRemove<T>(xs: seq<T>, originals: seq<T>, id: T -> string, o: T)
    requires o in xs && o in originals
    requires forall t :: t in xs && id(t) == id(o) ==> t == o
    requires forall t :: t in originals && id(t) == id(o) ==> t == o
    ensures var r := Regain(RemoveTemp(Some(xs), id, id(o)), Some(originals), id, id(o));
            r.Some? && forall t :: t in r.value <==> t in xs
  {
    var f := Find(originals, (t: T) => id(t) == id(o));
    var i :| 0 <= i < |originals| && originals[i] == o;
    assert f.Some?;
  }

  /** `handleDeletePron`: once the server confirms with 200, the pronunciation leaves the table. */
  function DeletePron(prons: Option<seq<Pronunciation>>, word: Option<Word>, pid: string, status: int): Option<seq<Pronunciation>>
  {
    if word.Some? && pid != "" && status == 200 then RemoveTemp(prons, PronId, pid) else prons
  }

  /** The table changes only for a confirmed delete of a known word. */
  lemma DeletePronSpec(prons: Option<seq<Pronunciation>>, word: Option<Word>, pid: string, status: int)
    ensures status != 200 || word.None? || pid == "" ==> DeletePron(prons, word, pid, status) == prons
    ensures prons.Some? && status == 200 && word.Some? && pid != "" ==>
              forall p :: p in DeletePron(prons, word, pid, status).value <==> p in prons.value && p.id != pid
  {
    RemoveTempSpec(prons, PronId, pid);
  }

  // --------------------------------------------------------- request bodies

  /** An audio file chosen in the upload box. */
  datatype AudioFile = AudioFile(name: string, mimeType: string)

  /** The pronunciation draft: a pronunciation plus the chosen audio file. */
  datatype PronDraft = PronDraft(pron: Pronunciation, audio: Option<AudioFile>)

  /** A pronunciation as sent: an omitted key is `Absent`. */
  datatype PronBody = PronBody(id: Val, pos: string, lang: string, url: Val, urlId: Val, pron: string)

  /** `_.omit(newPronunciation, ["audio", ...])`: a "new" draft also loses `_id`, `url` and `urlId`. */
  function PronunciationBody(d: PronDraft): PronBody
  {
    var p := d.pron;
    if Contains(p.id, "new") then PronBody(Absent, p.pos, p.lang, Absent, Absent, p.pron)
    else PronBody(Str(p.id), p.pos, p.lang, Str(p.url), p.urlId, p.pron)
  }

  /** A definition as sent; its examples go as they are. */
  datatype DefinitionBody = DefinitionBody(id: Val, pos: string, source: Val, text: Val, translation: Val, contextualMeaning: Val, examples: seq<Example>)

  function DefinitionBodyOf(d: Definition): DefinitionBody
  {
    DefinitionBody(if Contains(d.id, "new") then Absent else Str(d.id),
                   d.pos, d.source, d.text, d.translation, d.contextualMeaning, d.examples)
  }

  datatype ExampleBody = ExampleBody(id: Val, text: string, translation: Val)

  function ExampleBodyOf(e: Example): ExampleBody
  {
    ExampleBody(if Contains(e.id, "new") then Absent else Str(e.id), e.text, e.translation)
  }

  /** `handleUpdateDefinitionExamples`: the definition's id and its examples, each "new" one without `_id`. */
  datatype ExamplesBody = ExamplesBody(definitionId: string, examples: seq<ExampleBody>)

  function ExamplesBodyOf(d: Definition): (r: ExamplesBody)
    ensures |r.examples| == |d.examples|
  {
    ExamplesBody(d.id, seq(|d.examples|, i requires 0 <= i < |d.examples| => ExampleBodyOf(d.examples[i])))
  }

  /**
   * Client-made ids are never sent: a record whose id holds "new" goes
   * without `_id` (a pronunciation also without `url` and `urlId`), every
   * other record keeps its id, and the other fields pass through.
   */
  lemma NewIdsStripped(p: PronDraft, d: Definition)
    ensures PronunciationBody(p).id.Absent? <==> Contains(p.pron.id, "new")
    ensures Contains(p.pron.id, "new") ==> PronunciationBody(p).url.Absent? && PronunciationBody(p).urlId.Absent?
    ensures !Contains(p.pron.id, "new") ==> PronunciationBody(p).id == Str(p.pron.id) && PronunciationBody(p).urlId == p.pron.urlId
    ensures PronunciationBody(p).pron == p.pron.pron && PronunciationBody(p).lang == p.pron.lang
    ensures DefinitionBodyOf(d).id.Absent? <==> Contains(d.id, "new")
    ensures DefinitionBodyOf(d).examples == d.examples
    ensures var b := ExamplesBodyOf(d);
            b.definitionId == d.id
            && forall i :: 0 <= i < |d.examples| ==>
                 (b.examples[i].id.Absent? <==> Contains(d.examples[i].id, "new"))
                 && b.examples[i].text == d.examples[i].text
  {
  }

  /** `generateId`: `new-<random>-<time>`, an id the server never hands out. */
  function GenerateId(random: string, now: nat): (r: string)
    ensures IsPrefix("new-", r) && Contains(r, "new-") && Contains(r, "new")
  {
    var r := "new-" + random + "-" + NatToString(now);
    assert r == "new-" + (random + "-" + NatToString(now));
    PrefixContains("new-", random + "-" + NatToString(now));
    assert r == "new" + ("-" + random + "-" + NatToString(now));
    PrefixContains("new", "-" + random + "-" + NatToString(now));
    r
  }

  /** `handleDeleteDefinition`: once the server confirms with 200, the definition leaves the table. */
  function DeleteDefinition(defs: Option<seq<Definition>>, defId: string, status: int): Option<seq<Definition>>
  {
    if status == 200 then RemoveTemp(defs, DefId, defId) else defs
  }

  /** The table changes only for a confirmed delete, and then loses exactly the definitions with the id. */
  lemma DeleteDefinitionSpec(defs: Option<seq<Definition>>, defId: string, status: int)
    ensures status != 200 ==> DeleteDefinition(defs, defId, status) == defs
    ensures defs.Some? && status == 200 ==>
              forall d :: d in DeleteDefinition(defs, defId, status).value <==> d in defs.value && d.id != defId
  {
    RemoveTempSpec(defs, DefId, defId);
  }

  /** The pronunciation table and draft after `handleUpdatePronunciation` gets its reply. */
  datatype PronPanel = PronPanel(table: Option<seq<Pronunciation>>, draft: PronDraft)

  /**
   * On 200 the table becomes the saved word's pronunciations and the draft
   * is cleared under a fresh id, keeping its `urlId` and chosen file.
   */
  function PronSaved(p: PronPanel, status: int, saved: Word, freshId: string): PronPanel
  {
    if status != 200 then p
    else PronPanel(Some(saved.pronunciation),
                   PronDraft(Pronunciation(freshId, "", "", "", p.draft.pron.urlId, ""), p.draft.audio))
  }

  /** The definition table and draft after `handleUpdateDefinition` gets its reply. */
  datatype DefPanel = DefPanel(table: Option<seq<Definition>>, draft: Definition)

  /** On 200 the table becomes the saved word's definitions and the draft a blank one under a fresh id. */
  function DefinitionSaved(p: DefPanel, status: int, saved: Word, freshId: string): DefPanel
  {
    if status != 200 then p
    else DefPanel(Some(saved.definition), Definition(freshId, "", Str(""), Str(""), Str(""), Str(""), []))
  }

  /**
   * A save shows what the server stored, and the cleared draft is
   * client-made, so the next save of it is an add without `_id`; a failed
   * save keeps the draft for another try.
   */
  lemma SavedDraftsAreNew(pp: PronPanel, dp: DefPanel, status: int, saved: Word, random: string, now: nat)
    ensures status != 200 ==> PronSaved(pp, status, saved, GenerateId(random, now)) == pp
    ensures status != 200 ==> DefinitionSaved(dp, status, saved, GenerateId(random, now)) == dp
    ensures status == 200 ==>
              var p := PronSaved(pp, status, saved, GenerateId(random, now));
              p.table == Some(saved.pronunciation) && PronunciationBody(p.draft).id.Absent?
              && p.draft.audio == pp.draft.audio
    ensures status == 200 ==>
              var d := DefinitionSaved(dp, status, saved, GenerateId(random, now));
              d.table == Some(saved.definition) && DefinitionBodyOf(d.draft).id.Absent? && d.draft.examples == []
  {
  }

  // ------------------------------------------------------------------ state

  /** The editor's list state, updated in place by its handlers. */
  class WordEditor {
    var synonyms: Terms
    var antonyms: Terms
    var verbs: Verbs
    var pronunciations: Option<seq<Pronunciation>>
    var definitions: Option<seq<Definition>>

    constructor ()
      ensures synonyms == Terms([], "") && antonyms == Terms([], "") && verbs == Verbs([], Verb("", ""))
      ensures pronunciations == Some([]) && definitions == Some([])
    {
      synonyms := Terms([], "");
      antonyms := Terms([], "");
      verbs := Verbs([], Verb("", ""));
      pronunciations := Some([]);
      definitions := Some([]);
    }

    method HandleAddSynonym()
      modifies this
      ensures synonyms == AddTerm(old(synonyms))
      ensures antonyms == old(antonyms) && verbs == old(verbs)
      ensures pronunciations == old(pronunciations) && definitions == old(definitions)
    {
      if synonyms.input != "" && synonyms.input !in synonyms.items {
        synonyms := Terms(synonyms.items + [synonyms.input], "");
      }
    }

    method HandleDeleteSynonym(synonym: string)
      modifies this
      ensures synonyms == old(synonyms).(items := DeleteTerm(old(synonyms.items), synonym))
      ensures antonyms == old(antonyms) && verbs == old(verbs)
      ensures pronunciations == old(pronunciations) && definitions == old(definitions)
    {
      synonyms := synonyms.(items := DeleteTerm(synonyms.items, synonym));
    }

    method HandleAddAntonym()
      modifies this
      ensures antonyms == AddTerm(old(antonyms))
      ensures synonyms == old(synonyms) && verbs == old(verbs)
      ensures pronunciations == old(pronunciations) && definitions == old(definitions)
    {
      if antonyms.input != "" && antonyms.input !in antonyms.items {
        antonyms := Terms(antonyms.items + [antonyms.input], "");
      }
    }

    method HandleDeleteAntonym(antonym: string)
      modifies this
      ensures antonyms == old(antonyms).(items := DeleteTerm(old(antonyms.items), antonym))
      ensures synonyms == old(synonyms) && verbs == old(verbs)
      ensures pronunciations == old(pronunciations) && definitions == old(definitions)
    {
      antonyms := antonyms.(items := DeleteTerm(antonyms.items, antonym));
    }

    method HandleAddVerb()
      modifies this
      ensures verbs == AddVerb(old(verbs))
      ensures synonyms == old(synonyms) && antonyms == old(antonyms)
      ensures pronunciations == old(pronunciations) && definitions == old(definitions)
    {
      if ToLower(verbs.input.verbType) !in LowerTypes(verbs.items) {
        verbs := Verbs(verbs.items + [verbs.input], Verb("", ""));
      }
    }

    /** Deletes the verbs of the entry's type (the corrected handler). */
    method HandleDeleteVerb(entry: Verb)
      modifies this
      ensures verbs == old(verbs).(items := DeleteVerbOfType(old(verbs.items), entry.verbType))
      ensures synonyms == old(synonyms) && antonyms == old(antonyms)
      ensures pronunciations == old(pronunciations) && definitions == old(definitions)
    {
      verbs := verbs.(items := DeleteVerbOfType(verbs.items, entry.verbType));
    }

    method HandleRemovePronTemp(pid: string)
      modifies this
      ensures pronunciations == RemoveTemp(old(pronunciations), PronId, pid)
      ensures definitions == old(definitions)
    {
      pronunciations := RemoveTemp(pronunciations, PronId, pid);
    }

    method HandleRemoveDefTemp(defId: string)
      modifies this
      ensures definitions == RemoveTemp(old(definitions), DefId, defId)
      ensures pronunciations == old(pronunciations)
    {
      definitions := RemoveTemp(definitions, DefId, defId);
    }

    method HandleRegainPron(word: Option<Word>, pid: string)
      modifies this
      ensures pronunciations == Regain(old(pronunciations), Prons(word), PronId, pid)
      ensures definitions == old(definitions)
    {
      pronunciations := Regain(pronunciations, Prons(word), PronId, pid);
    }

    method HandleRegainDef(word: Option<Word>, defId: string)
      modifies this
      ensures definitions == Regain(old(definitions), Defs(word), DefId, defId)
      ensures pronunciations == old(pronunciations)
    {
      definitions := Regain(definitions, Defs(word), DefId, defId);
    }

    /**
     * `handleDeletePron`: a confirmed delete also shows the reply's message
     * and hands the reply's word to the words screen.
     */
    method HandleDeletePron(app: AppSlice.AppStore, word: Option<Word>, pid: string, status: int, saved: Word, reply: Json.Json)
      returns (emitted: Option<Word>)
      modifies this, app
      ensures pronunciations == DeletePron(old(pronunciations), word, pid, status)
      ensures definitions == old(definitions)
      ensures var done := word.Some? && pid != "" && status == 200;
              emitted == (if done then Some(saved) else None)
              && app.State() == (if done then AppSlice.Reduce(old(app.State()), AppSlice.CallMessage(AppSlice.Message(AppSlice.Success, Json.Get(reply, "message")))) else old(app.State()))
    {
      emitted := None;
      if word.Some? && pid != "" && status == 200 {
        app.Dispatch(AppSlice.CallMessage(AppSlice.Message(AppSlice.Success, Json.Get(reply, "message"))));
        emitted := Some(saved);
        pronunciations := RemoveTemp(pronunciations, PronId, pid);
      }
    }

    /**
     * `handleDeleteDefinition`: a confirmed delete also shows the reply's
     * message and hands the reply's word to the words screen.
     */
    method HandleDeleteDefinition(app: AppSlice.AppStore, defId: string, status: int, saved: Word, reply: Json.Json)
      returns (emitted: Option<Word>)
      modifies this, app
      ensures definitions == DeleteDefinition(old(definitions), defId, status)
      ensures pronunciations == old(pronunciations)
      ensures emitted == (if status == 200 then Some(saved) else None)
      ensures app.State() == (if status == 200 then AppSlice.Reduce(old(app.State()), AppSlice.CallMessage(AppSlice.Message(AppSlice.Success, Json.Get(reply, "message")))) else old(app.State()))
    {
      emitted := None;
      if status == 200 {
        app.Dispatch(AppSlice.CallMessage(AppSlice.Message(AppSlice.Success, Json.Get(reply, "message"))));
        emitted := Some(saved);
        definitions := RemoveTemp(definitions, DefId, defId);
      }
    }
  }
}
