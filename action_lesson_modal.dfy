/**
 * The lesson editor of a stage: the choices offered for the previous
 * lesson, the request body built from the form, and the choice between
 * adding and updating a lesson.
 */
module ActionLessonModal {
  import opened Js
  import opened Lists
  import opened Types

  /** The lessons that may precede `lessonId`: not itself, and not one that already follows it. */
  predicate MayPrecede(l: Lesson, lessonId: string)
  {
    l.id != lessonId && l.previousLesson != Str(lessonId)
  }

  function AsChoices(ls: seq<Lesson>): (r: seq<Choice>)
    ensures |r| == |ls| && forall i :: 0 <= i < |ls| ==> r[i] == Choice(Str(ls[i].id), ls[i].title)
  {
    seq(|ls|, i requires 0 <= i < |ls| => Choice(Str(ls[i].id), ls[i].title))
  }

  /** The options of the "Previous Lesson" select, in stage order. */
  function PreviousLessonChoices(stageLessons: seq<Lesson>, lessonId: string): seq<Choice>
  {
    AsChoices(Filter(stageLessons, (l: Lesson) => MayPrecede(l, lessonId)))
  }

  /**
   * A lesson is offered exactly when it is in the stage, is not the lesson
   * being edited and does not name that lesson as its previous one, so no
   * lesson can precede itself and no two lessons can precede each other.
   */
  lemma ChoicesExcludeSelfAndCycle(stageLessons: seq<Lesson>, lessonId: string, l: Lesson)
    ensures Choice(Str(l.id), l.title) in PreviousLessonChoices(stageLessons, lessonId)
            <== l in stageLessons && MayPrecede(l, lessonId)
    ensures forall c :: c in PreviousLessonChoices(stageLessons, lessonId) ==>
              c.value != Str(lessonId)
              && exists m :: m in stageLessons && MayPrecede(m, lessonId) && c == Choice(Str(m.id), m.title)
  {
    var kept := Filter(stageLessons, (m: Lesson) => MayPrecede(m, lessonId));
    var r := AsChoices(kept);
    if l in stageLessons && MayPrecede(l, lessonId) {
      var i :| 0 <= i < |kept| && kept[i] == l;
      assert r[i] == Choice(Str(l.id), l.title);
    }
    forall c | c in r
      ensures c.value != Str(lessonId)
      ensures exists m :: m in stageLessons && MayPrecede(m, lessonId) && c == Choice(Str(m.id), m.title)
    {
      var i :| 0 <= i < |r| && r[i] == c;
      assert kept[i] in kept;
    }
  }

  /** The offered lessons keep the stage's order. */
  lemma ChoicesKeepStageOrder(stageLessons: seq<Lesson>, lessonId: string)
    ensures exists kept :: Subseq(kept, stageLessons) && PreviousLessonChoices(stageLessons, lessonId) == AsChoices(kept)
  {
    FilterIsSubseq(stageLessons, (m: Lesson) => MayPrecede(m, lessonId));
  }

  /**
   * The lesson form. "New Words" is an optional multi-select: `newWords` is
   * `None` while the field holds `undefined`, as it does when a lesson
   * without words was loaded and the field was not touched.
   */
  datatype LessonForm = LessonForm(title: Val, previousLesson: Val, description: Val, newWords: Option<seq<Choice>>)

  /** The lesson request body; `id` is attached for an update. */
  datatype LessonBody = LessonBody(id: Option<string>, title: Val, previousLesson: Val, description: Val, newWords: seq<Val>)

  /** The request `handleSubmitLessonToStage` sends. */
  datatype Request = AddLesson(body: LessonBody) | UpdateLesson(body: LessonBody)

  /**
   * `getTransferBody` as written: `newWords.map(...)` throws on `undefined`,
   * which is `None` here.
   */
  function TransferBodyAsWritten(form: LessonForm): Option<LessonBody>
  {
    if form.newWords.None? then None
    else Some(LessonBody(None, form.title, form.previousLesson, form.description, ChoiceValues(form.newWords.value)))
  }

  /** `handleSubmitLessonToStage` as written: the body is built before either call, so a throw sends nothing. */
  function SubmitAsWritten(lessonId: string, form: LessonForm): Option<Request>
  {
    var body := TransferBodyAsWritten(form);
    if body.None? then None
    else if Contains(lessonId, "new") then Some(AddLesson(body.value))
    else Some(UpdateLesson(body.value.(id := Some(lessonId))))
  }

  /** The form the editor loads for a lesson: `lesson.newWords?.map(...)`. */
  function LoadForm(l: Lesson): LessonForm
  {
    LessonForm(Str(l.title), l.previousLesson, Str(l.description),
               if l.newWords.None? then None
               else Some(seq(|l.newWords.value|, i requires 0 <= i < |l.newWords.value| =>
                               Choice(Str(l.newWords.value[i].id), l.newWords.value[i].word))))
  }

  /**
   * As written, a lesson loaded without a word list (every new lesson) and
   * submitted without touching "New Words" is never sent, whatever title,
   * previous lesson and description were typed in.
   */
  lemma UntouchedWordsBlockSubmit(l: Lesson, title: Val, previous: Val, description: Val)
    requires l.newWords.None?
    ensures SubmitAsWritten(l.id, LoadForm(l).(title := title, previousLesson := previous, description := description)).None?
  {
  }

  /** The chosen words, with an untouched field read as no words: `(newWords || [])`. */
  function ChosenWords(form: LessonForm): seq<Choice>
  {
    if form.newWords.Some? then form.newWords.value else []
  }

  /** `getTransferBody` with the optional field read as an empty choice. */
  function GetTransferBody(form: LessonForm): LessonBody
  {
    LessonBody(None, form.title, form.previousLesson, form.description, ChoiceValues(ChosenWords(form)))
  }

  /** `handleSubmitLessonToStage`, with the optional field read as an empty choice. */
  function Submit(lessonId: string, form: LessonForm): Request
  {
    if Contains(lessonId, "new") then AddLesson(GetTransferBody(form))
    else UpdateLesson(GetTransferBody(form).(id := Some(lessonId)))
  }

  /**
   * Every form is sent: a client-made id as an add without `_id`, any other
   * id as an update carrying it; both send the form's title, previous
   * lesson, description and the ids of the chosen words in order (none when
   * the field was not touched). Where the code as written sends a request,
   * it is this one.
   */
  lemma SubmitRouting(lessonId: string, form: LessonForm)
    ensures var q := Submit(lessonId, form);
            (q.AddLesson? <==> Contains(lessonId, "new"))
            && (q.AddLesson? ==> q.body.id.None?)
            && (q.UpdateLesson? ==> q.body.id == Some(lessonId))
            && q.body.title == form.title && q.body.previousLesson == form.previousLesson
            && q.body.description == form.description
            && (form.newWords.None? ==> q.body.newWords == [])
            && (form.newWords.Some? ==>
                  |q.body.newWords| == |form.newWords.value|
                  && forall i :: 0 <= i < |form.newWords.value| ==> q.body.newWords[i] == form.newWords.value[i].value)
            && (SubmitAsWritten(lessonId, form).Some? <==> form.newWords.Some?)
            && (form.newWords.Some? ==> SubmitAsWritten(lessonId, form) == Some(q))
  {
  }

  /**
   * Loading a lesson and submitting it unedited sends its own fields and its
   * new words' ids in order (none for a lesson without a word list).
   */
  lemma LoadThenSubmitKeepsLesson(l: Lesson)
    ensures var b := GetTransferBody(LoadForm(l));
            var words := if l.newWords.Some? then l.newWords.value else [];
            b.title == Str(l.title) && b.previousLesson == l.previousLesson && b.description == Str(l.description)
            && |b.newWords| == |words|
            && forall i :: 0 <= i < |words| ==> b.newWords[i] == Str(words[i].id)
  {
  }
}
