/**
 * The lessons screen of a stage: the lesson table, the lesson open in the
 * editor with its quiz objects, and the editor's visibility. Each server
 * reply is applied to these only when its status is below 400; otherwise
 * the caller's failure callback runs and nothing changes.
 */
module LessonsManagement {
  import opened Js
  import opened Lists
  import opened Types
  import AppSlice
  import Json

  /**
   * The lesson open in the editor: `{}` after a reset (no id, no quizzes),
   * a fresh "new-" id for a lesson being created, or a loaded lesson with
   * its quiz objects.
   */
  datatype OpenLesson = OpenLesson(id: Val, quizzes: Option<seq<Quiz>>)

  const NoLesson := OpenLesson(Absent, None)

  datatype View = View(lessons: seq<Lesson>, current: OpenLesson, lessonModalOpen: bool)

  /** Which callback of the caller runs. */
  datatype Callback = SuccessCb | FailCb

  predicate Succeeded(status: int) { status < 400 }

  function CallbackFor(status: int): (r: Callback)
    ensures r.SuccessCb? <==> status < 400
  {
    if Succeeded(status) then SuccessCb else FailCb
  }

  /** `prev.quizzes || []`. */
  function QuizzesOf(l: OpenLesson): seq<Quiz>
  {
    l.quizzes.UnwrapOr([])
  }

  /** `loadLessonQuizzes`: opens a table lesson with its quiz objects. */
  function QuizzesLoaded(v: View, lesson: Lesson, status: int, questions: seq<Quiz>): View
  {
    if !Succeeded(status) then v
    else v.(current := OpenLesson(Str(lesson.id), Some(questions)), lessonModalOpen := true)
  }

  /** `handleAddQuizzToLesson`: the new quiz goes last in the open lesson; the table takes the returned lesson. */
  function AddQuizz(v: View, status: int, updatedLesson: Lesson, newQuiz: Quiz): View
  {
    if !Succeeded(status) then v
    else v.(current := v.current.(quizzes := Some(QuizzesOf(v.current) + [newQuiz])),
            lessons := MapWhere(v.lessons, (l: Lesson) => l.id == updatedLesson.id, (l: Lesson) => updatedLesson))
  }

  /** `handleUpdateQuizzToLesson`: the open lesson's quiz with the same id becomes the returned quiz. */
  function UpdateQuizz(v: View, status: int, updated: Quiz): View
  {
    if !Succeeded(status) then v
    else v.(current := v.current.(quizzes := Some(MapWhere(QuizzesOf(v.current), (q: Quiz) => q.id == updated.id, (q: Quiz) => updated))))
  }

  /** The table lesson with the quiz id dropped from its id list. */
  function WithoutQuizId(l: Lesson, quizId: string): Lesson
  {
    l.(quizIds := Filter(l.quizIds, (id: string) => id != quizId))
  }

  /** `handleDeleteQuizz`: the quiz leaves the open lesson's objects and that lesson's id list in the table. */
  function DeleteQuizz(v: View, status: int, quizId: string): View
  {
    if !Succeeded(status) then v
    else v.(current := v.current.(quizzes := Some(Filter(QuizzesOf(v.current), (q: Quiz) => q.id != quizId))),
            lessons := MapWhere(v.lessons, (l: Lesson) => Str(l.id) == v.current.id, (l: Lesson) => WithoutQuizId(l, quizId)))
  }

  /** `handleDeleteLesson`. */
  function DeleteLesson(v: View, status: int, lessonId: string): View
  {
    if !Succeeded(status) then v
    else v.(lessons := Filter(v.lessons, (l: Lesson) => l.id != lessonId))
  }

  /** `handleAddLesson` and `handleUpdateLesson`: the table becomes the stage's lessons from the reply. */
  function ReplaceLessons(v: View, status: int, stageLessons: seq<Lesson>): View
  {
    if !Succeeded(status) then v
    else View(stageLessons, NoLesson, !v.lessonModalOpen)
  }

  /** A failed request changes nothing, whichever handler made it. */
  lemma FailureChangesNothing(v: View, status: int, lesson: Lesson, qs: seq<Quiz>, q: Quiz, id: string, ls: seq<Lesson>)
    requires status >= 400
    ensures CallbackFor(status) == FailCb
    ensures QuizzesLoaded(v, lesson, status, qs) == v && AddQuizz(v, status, lesson, q) == v
    ensures UpdateQuizz(v, status, q) == v && DeleteQuizz(v, status, id) == v
    ensures DeleteLesson(v, status, id) == v && ReplaceLessons(v, status, ls) == v
  {
  }

  /**
   * Adding a quiz appends it to the open lesson's quizzes, a missing list
   * counting as empty, and replaces the same-id table lesson by the returned
   * one, the others unchanged.
   */
  lemma AddQuizzSpec(v: View, status: int, updated: Lesson, q: Quiz)
    requires status < 400
    ensures var r := AddQuizz(v, status, updated, q);
            r.current.quizzes == Some(QuizzesOf(v.current) + [q])
            && (v.current.quizzes.None? ==> r.current.quizzes == Some([q]))
            && r.current.id == v.current.id && r.lessonModalOpen == v.lessonModalOpen
            && |r.lessons| == |v.lessons|
            && forall i :: 0 <= i < |v.lessons| ==>
                 r.lessons[i] == (if v.lessons[i].id == updated.id then updated else v.lessons[i])
  {
    if v.current.quizzes.None? {
      assert [] + [q] == [q];
    }
  }

  /**
   * Updating a quiz replaces the quizzes with its id and no others, keeping
   * the order; with distinct ids exactly one position changes.
   */
  lemma UpdateQuizzSpec(v: View, status: int, q: Quiz)
    requires status < 400
    ensures var qs := QuizzesOf(v.current);
            var r := UpdateQuizz(v, status, q).current.quizzes.value;
            |r| == |qs| && (forall i :: 0 <= i < |qs| ==> r[i] == (if qs[i].id == q.id then q else qs[i]))
            && UpdateQuizz(v, status, q).lessons == v.lessons
  {
  }

  lemma UpdateQuizzOne(v: View, status: int, q: Quiz, i: nat)
    requires status < 400
    requires i < |QuizzesOf(v.current)| && QuizzesOf(v.current)[i].id == q.id
    requires forall j :: 0 <= j < |QuizzesOf(v.current)| && j != i ==> QuizzesOf(v.current)[j].id != q.id
    ensures UpdateQuizz(v, status, q).current.quizzes == Some(QuizzesOf(v.current)[i := q])
  {
    MapWhereOne(QuizzesOf(v.current), (x: Quiz) => x.id == q.id, (x: Quiz) => q, i);
  }

  /**
   * Deleting a quiz removes it from the open lesson's objects and from the
   * open lesson's id list in the table; other table lessons are untouched.
   */
  lemma DeleteQuizzSpec(v: View, status: int, quizId: string)
    requires status < 400
    ensures var r := DeleteQuizz(v, status, quizId);
            (forall q :: q in r.current.quizzes.value <==> q in QuizzesOf(v.current) && q.id != quizId)
            && |r.lessons| == |v.lessons|
            && forall i :: 0 <= i < |v.lessons| ==>
                 (Str(v.lessons[i].id) != v.current.id ==> r.lessons[i] == v.lessons[i])
                 && (Str(v.lessons[i].id) == v.current.id ==>
                       r.lessons[i].id == v.lessons[i].id && quizId !in r.lessons[i].quizIds
                       && forall x :: x in v.lessons[i].quizIds && x != quizId ==> x in r.lessons[i].quizIds)
  {
  }

  /** Deleting a lesson removes only the lessons with that id, keeping the order. */
  lemma DeleteLessonSpec(v: View, status: int, lessonId: string)
    requires status < 400
    ensures var r := DeleteLesson(v, status, lessonId).lessons;
            (forall l :: l in r <==> l in v.lessons && l.id != lessonId) && Subseq(r, v.lessons)
  {
    FilterIsSubseq(v.lessons, (l: Lesson) => l.id != lessonId);
  }

  /** Adding or updating a lesson installs the stage's lessons from the reply, resets the open lesson and toggles the editor. */
  lemma ReplaceLessonsSpec(v: View, status: int, ls: seq<Lesson>)
    requires status < 400
    ensures var r := ReplaceLessons(v, status, ls);
            r.lessons == ls && r.current.id.Absent? && r.current.quizzes.None?
            && r.lessonModalOpen == !v.lessonModalOpen
  {
  }

  /** The screen's state fields, updated in place by its handlers. */
  class LessonsScreen {
    var lessons: seq<Lesson>
    var currentLesson: OpenLesson
    var lessonModalOpen: bool

    function State(): View
      reads this
    {
      View(lessons, currentLesson, lessonModalOpen)
    }

    /** The screen opens on the stage's lessons, with no lesson open. */
    constructor (stageLessons: seq<Lesson>)
      ensures State() == View(stageLessons, NoLesson, false)
    {
      lessons := stageLessons;
      currentLesson := NoLesson;
      lessonModalOpen := false;
    }

    /** `loadLessonQuizzes`: the full-screen loader is on during the request and off after it. */
    method LoadLessonQuizzes(app: AppSlice.AppStore, lesson: Lesson, status: int, questions: seq<Quiz>)
      modifies this, app
      ensures State() == QuizzesLoaded(old(State()), lesson, status, questions)
      ensures app.State() == old(app.State()).(loadingFullScreen := false)
    {
      app.Dispatch(AppSlice.LoadingFullScreen(Some(true)));
      if status < 400 {
        currentLesson := OpenLesson(Str(lesson.id), Some(questions));
        lessonModalOpen := true;
      }
      app.Dispatch(AppSlice.LoadingFullScreen(Some(false)));
    }

    method HandleToggleLessonModal()
      modifies this
      ensures State() == old(State()).(lessonModalOpen := !old(lessonModalOpen))
    {
      lessonModalOpen := !lessonModalOpen;
    }

    /** The "add lesson" button: the editor toggles on a fresh `new-<time>` lesson. */
    method HandleAddNewLesson(now: nat)
      modifies this
      ensures State() == old(State()).(current := OpenLesson(Str("new-" + NatToString(now)), None),
                                       lessonModalOpen := !old(lessonModalOpen))
    {
      lessonModalOpen := !lessonModalOpen;
      currentLesson := OpenLesson(Str("new-" + NatToString(now)), None);
    }

    method HandleAddQuizzToLesson(app: AppSlice.AppStore, status: int, updatedLesson: Lesson, newQuiz: Quiz, reply: Json.Json) returns (cb: Callback)
      modifies this, app
      ensures app.State() == (if status < 400 then AppSlice.Reduce(old(app.State()), AppSlice.CallMessage(AppSlice.Message(AppSlice.Success, Json.Get(reply, "message")))) else old(app.State()))
      ensures State() == AddQuizz(old(State()), status, updatedLesson, newQuiz)
      ensures cb == CallbackFor(status)
    {
      if status < 400 {
        currentLesson := currentLesson.(quizzes := Some(QuizzesOf(currentLesson) + [newQuiz]));
        lessons := MapWhere(lessons, (l: Lesson) => l.id == updatedLesson.id, (l: Lesson) => updatedLesson);
        cb := SuccessCb;
        app.Dispatch(AppSlice.CallMessage(AppSlice.Message(AppSlice.Success, Json.Get(reply, "message"))));
      } else {
        cb := FailCb;
      }
    }

    method HandleUpdateQuizzToLesson(app: AppSlice.AppStore, status: int, updated: Quiz, reply: Json.Json) returns (cb: Callback)
      modifies this, app
      ensures app.State() == (if status < 400 then AppSlice.Reduce(old(app.State()), AppSlice.CallMessage(AppSlice.Message(AppSlice.Success, Json.Get(reply, "message")))) else old(app.State()))
      ensures State() == UpdateQuizz(old(State()), status, updated)
      ensures cb == CallbackFor(status)
    {
      if status < 400 {
        currentLesson := currentLesson.(quizzes := Some(MapWhere(QuizzesOf(currentLesson), (q: Quiz) => q.id == updated.id, (q: Quiz) => updated)));
        cb := SuccessCb;
        app.Dispatch(AppSlice.CallMessage(AppSlice.Message(AppSlice.Success, Json.Get(reply, "message"))));
      } else {
        cb := FailCb;
      }
    }

    method HandleDeleteQuizz(app: AppSlice.AppStore, status: int, quizId: string, reply: Json.Json) returns (cb: Callback)
      modifies this, app
      ensures app.State() == (if status < 400 then AppSlice.Reduce(old(app.State()), AppSlice.CallMessage(AppSlice.Message(AppSlice.Success, Json.Get(reply, "message")))) else old(app.State()))
      ensures State() == DeleteQuizz(old(State()), status, quizId)
      ensures cb == CallbackFor(status)
    {
      if status < 400 {
        var open := currentLesson;
        currentLesson := currentLesson.(quizzes := Some(Filter(QuizzesOf(currentLesson), (q: Quiz) => q.id != quizId)));
        lessons := MapWhere(lessons, (l: Lesson) => Str(l.id) == open.id, (l: Lesson) => WithoutQuizId(l, quizId));
        cb := SuccessCb;
        app.Dispatch(AppSlice.CallMessage(AppSlice.Message(AppSlice.Success, Json.Get(reply, "message"))));
      } else {
        cb := FailCb;
      }
    }

    method HandleDeleteLesson(app: AppSlice.AppStore, status: int, lessonId: string, reply: Json.Json)
      modifies this, app
      ensures app.State() == (if status < 400 then AppSlice.Reduce(old(app.State()), AppSlice.CallMessage(AppSlice.Message(AppSlice.Success, Json.Get(reply, "message")))) else old(app.State()))
      ensures State() == DeleteLesson(old(State()), status, lessonId)
    {
      if status < 400 {
        lessons := Filter(lessons, (l: Lesson) => l.id != lessonId);
        app.Dispatch(AppSlice.CallMessage(AppSlice.Message(AppSlice.Success, Json.Get(reply, "message"))));
      }
    }

    /** `handleAddLesson` and `handleUpdateLesson` share their reply handling. */
    method HandleLessonSaved(app: AppSlice.AppStore, status: int, stageLessons: seq<Lesson>, reply: Json.Json) returns (cb: Callback)
      modifies this, app
      ensures app.State() == (if status < 400 then AppSlice.Reduce(old(app.State()), AppSlice.CallMessage(AppSlice.Message(AppSlice.Success, Json.Get(reply, "message")))) else old(app.State()))
      ensures State() == ReplaceLessons(old(State()), status, stageLessons)
      ensures cb == CallbackFor(status)
    {
      if status < 400 {
        lessons := stageLessons;
        currentLesson := NoLesson;
        lessonModalOpen := !lessonModalOpen;
        cb := SuccessCb;
        app.Dispatch(AppSlice.CallMessage(AppSlice.Message(AppSlice.Success, Json.Get(reply, "message"))));
      } else {
        cb := FailCb;
      }
    }
  }
}
