/**
 * The pronunciations panel of the word editor: loading a table row into the
 * pronunciation draft, accepting an audio file, and the save-button test.
 */
module Pronunciations {
  import opened Js
  import opened Lists
  import opened Types
  import opened ActionWordModal
  import AppSlice
  import Json

  /** `{...prev, ...obj}` for a table row: the row's keys win, the chosen audio file stays. */
  function MergePronunciation(prev: PronDraft, obj: Pronunciation): PronDraft
  {
    PronDraft(obj.(urlId := Over(prev.pron.urlId, obj.urlId)), prev.audio)
  }

  /** The pronunciation draft with the table it was taken from. */
  datatype Editing = Editing(draft: PronDraft, table: Option<seq<Pronunciation>>)

  /** `handleUpdatePron`: put a draft that came from the word back, load the row, take the row out of the table. */
  function UpdatePron(e: Editing, word: Option<Word>, obj: Pronunciation): Editing
  {
    var regained := if !Contains(e.draft.pron.id, "new") then Regain(e.table, Prons(word), PronId, e.draft.pron.id) else e.table;
    Editing(MergePronunciation(e.draft, obj), RemoveTemp(regained, PronId, obj.id))
  }

  /**
   * Loading a row: the draft holds the row (keeping the chosen file, and
   * its `urlId` when the row has none), no entry with the row's id stays in
   * the table, every other entry stays, and a draft that came from the word
   * is restored from the word's own copy.
   */
  lemma UpdatePronSpec(e: Editing, word: Option<Word>, obj: Pronunciation)
    ensures var r := UpdatePron(e, word, obj);
            (!obj.urlId.Absent? ==> r.draft.pron == obj)
            && (obj.urlId.Absent? ==> r.draft.pron == obj.(urlId := e.draft.pron.urlId))
            && r.draft.audio == e.draft.audio
            && (r.table.Some? ==> forall p :: p in r.table.value ==> p.id != obj.id)
            && (e.table.Some? ==> r.table.Some? && forall p :: p in e.table.value && p.id != obj.id ==> p in r.table.value)
            && (Contains(e.draft.pron.id, "new") ==> r.table == RemoveTemp(e.table, PronId, obj.id))
    ensures forall i :: word.Some? && !Contains(e.draft.pron.id, "new") && e.draft.pron.id != obj.id
                        && 0 <= i < |word.value.pronunciation| && word.value.pronunciation[i].id == e.draft.pron.id
                        && (forall j :: 0 <= j < i ==> word.value.pronunciation[j].id != e.draft.pron.id)
              ==> UpdatePron(e, word, obj).table.Some? && word.value.pronunciation[i] in UpdatePron(e, word, obj).table.value
  {
    var regained := if !Contains(e.draft.pron.id, "new") then Regain(e.table, Prons(word), PronId, e.draft.pron.id) else e.table;
    if !Contains(e.draft.pron.id, "new") {
      RegainSpec(e.table, Prons(word), PronId, e.draft.pron.id);
      if e.table.Some? && regained != e.table {
        assert regained.value == e.table.value + [regained.value[|regained.value| - 1]];
        assert forall p :: p in e.table.value ==> p in regained.value;
      }
    }
    RemoveTempSpec(regained, PronId, obj.id);
  }

  const Mp3 := "audio/mpeg"
  const Mp3Only := "The system only supports MP3 format"

  /** What the upload box does with a file: keep it out of its own list, or ignore it. */
  datatype UploadVerdict = StopUpload | ListIgnore

  datatype UploadResult = UploadResult(draft: PronDraft, message: Option<AppSlice.Action>, verdict: UploadVerdict)

  /**
   * `beforeUploadAudioFile`: an MP3 file becomes the draft's audio and its
   * object URL the draft's `url`; any other file leaves the draft alone and
   * posts an error message.
   */
  function BeforeUpload(d: PronDraft, file: AudioFile, objectUrl: string): UploadResult
  {
    if file.mimeType == Mp3 then
      UploadResult(PronDraft(d.pron.(url := objectUrl), Some(file)), None, StopUpload)
    else
      UploadResult(d, Some(AppSlice.CallMessage(AppSlice.Message(AppSlice.Error, Json.Str(Mp3Only)))), ListIgnore)
  }

  /** Only an MP3 file is taken, and a rejected file changes nothing but the message. */
  lemma BeforeUploadSpec(d: PronDraft, file: AudioFile, objectUrl: string)
    ensures var r := BeforeUpload(d, file, objectUrl);
            (r.verdict == StopUpload <==> file.mimeType == Mp3)
            && (file.mimeType == Mp3 ==>
                  r.draft.audio == Some(file) && r.draft.pron.url == objectUrl && r.message.None?
                  && r.draft.pron.(url := d.pron.url) == d.pron)
            && (file.mimeType != Mp3 ==>
                  r.draft == d && r.message.Some? && r.message.value.CallMessage?
                  && r.message.value.msg.kind == AppSlice.Error)
  {
  }

  /** A key of the draft passes the save test when its trimmed text is not empty. */
  predicate Filled(s: string)
  {
    s != "" && !IsBlank(s)
  }

  /** The "save pronunciation" button: id, part of speech, language and transcription are filled, and no save runs. */
  predicate CanSavePronunciation(d: PronDraft, confirmLoading: bool)
  {
    Filled(d.pron.id) && Filled(d.pron.pos) && Filled(d.pron.lang) && Filled(d.pron.pron) && !confirmLoading
  }

  /**
   * The test ignores the audio, the URL and its id, and blocks while a save
   * runs; a transcription made of spaces blocks.
   */
  lemma CanSavePronunciationSpec(d: PronDraft, url: string, urlId: Val, audio: Option<AudioFile>)
    ensures CanSavePronunciation(PronDraft(d.pron.(url := url, urlId := urlId), audio), false)
            == CanSavePronunciation(d, false)
    ensures !CanSavePronunciation(d, true)
    ensures IsBlank(d.pron.pron) ==> !CanSavePronunciation(d, false)
    ensures !CanSavePronunciation(PronDraft(Pronunciation("p1", "noun", "en", "", Absent, " "), None), false)
  {
    assert IsBlank(" ") by { assert TrimStart(" ") == ""; }
  }

  /** The panel's draft and the table it shares with the word editor. */
  class PronunciationsPanel {
    var draft: PronDraft
    var table: Option<seq<Pronunciation>>

    constructor (start: PronDraft, rows: Option<seq<Pronunciation>>)
      ensures draft == start && table == rows
    {
      draft := start;
      table := rows;
    }

    method HandleUpdatePron(word: Option<Word>, obj: Pronunciation)
      modifies this
      ensures Editing(draft, table) == UpdatePron(Editing(old(draft), old(table)), word, obj)
    {
      if !Contains(draft.pron.id, "new") {
        table := Regain(table, Prons(word), PronId, draft.pron.id);
      }
      draft := MergePronunciation(draft, obj);
      table := RemoveTemp(table, PronId, obj.id);
    }

    method BeforeUploadAudioFile(app: AppSlice.AppStore, file: AudioFile, objectUrl: string) returns (verdict: UploadVerdict)
      modifies this, app
      ensures var r := BeforeUpload(old(draft), file, objectUrl);
              draft == r.draft && verdict == r.verdict && table == old(table)
              && app.State() == (if r.message.Some? then AppSlice.Reduce(old(app.State()), r.message.value) else old(app.State()))
    {
      var r := BeforeUpload(draft, file, objectUrl);
      draft := r.draft;
      if r.message.Some? {
        app.Dispatch(r.message.value);
      }
      verdict := r.verdict;
    }
  }
}
