/**
 * The stages screen: the stage list, the stage open in the stage editor,
 * the editor's visibility, and how a confirm is routed to add or update.
 */
module StagesManagement {
  import opened Js
  import opened Lists
  import opened Types
  import AppSlice
  import Json

  /** A stage as sent: the editor's fields, with `_id` only where it is attached. */
  datatype StageBody = StageBody(id: Option<string>, topic: Val, part: Option<int>, description: Val)

  datatype Request = AddStage(body: StageBody) | UpdateStage(body: StageBody)

  /** `onConfirm`: an id with "new" adds the body as it is; any other id updates it with the open stage's `_id` attached. */
  function Confirm(current: Stage, body: StageBody): Request
  {
    if !Contains(current.id, "new") then UpdateStage(body.(id := Some(current.id))) else AddStage(body)
  }

  /** A client-made id adds, any other id updates that stage, and the editor's fields go unchanged. */
  lemma ConfirmRouting(current: Stage, body: StageBody)
    ensures Confirm(current, body).AddStage? <==> Contains(current.id, "new")
    ensures Confirm(current, body).AddStage? ==> Confirm(current, body).body == body
    ensures Confirm(current, body).UpdateStage? ==>
              Confirm(current, body).body.id == Some(current.id)
              && Confirm(current, body).body.(id := body.id) == body
  {
  }

  /** The stage list, the open stage and the editor's visibility. */
  datatype View = View(stages: seq<Stage>, current: Option<Stage>, modalOpen: bool)

  /** What the editor's callbacks receive. */
  datatype Callback = SuccessCb(stage: Stage) | FailCb

  datatype Outcome = Outcome(view: View, cb: Callback)

  /** `handleUpdateStage`: the returned stage replaces the sent id's stage and the open stage is cleared. */
  function StageUpdated(v: View, status: int, sentId: string, returned: Stage): Outcome
  {
    if status >= 400 then Outcome(v, FailCb)
    else Outcome(v.(stages := MapWhere(v.stages, (s: Stage) => s.id == sentId, (s: Stage) => returned), current := None),
                 SuccessCb(returned))
  }

  /** `handleAddStage`: the first returned stage goes last and the open stage is cleared. */
  function StageAdded(v: View, status: int, first: Stage): Outcome
  {
    if status >= 400 then Outcome(v, FailCb)
    else Outcome(v.(stages := v.stages + [first], current := None), SuccessCb(first))
  }

  /** `handleDeleteStage`. */
  function StageDeleted(v: View, status: int, stageId: string): View
  {
    if status >= 400 then v else v.(stages := Filter(v.stages, (s: Stage) => s.id != stageId))
  }

  /** A failure changes neither the list nor the open stage and runs the failure callback. */
  lemma FailureChangesNothing(v: View, status: int, id: string, s: Stage)
    requires status >= 400
    ensures StageUpdated(v, status, id, s) == Outcome(v, FailCb)
    ensures StageAdded(v, status, s) == Outcome(v, FailCb)
    ensures StageDeleted(v, status, id) == v
  {
  }

  /**
   * On success: an update replaces exactly the stages with the sent id by
   * the returned stage and keeps the order; an add appends one stage; both
   * clear the open stage and hand the stage to the success callback; a
   * delete removes only the stages with that id.
   */
  lemma SuccessSpec(v: View, status: int, id: string, s: Stage)
    requires status < 400
    ensures var r := StageUpdated(v, status, id, s);
            r.cb == SuccessCb(s) && r.view.current.None? && r.view.modalOpen == v.modalOpen
            && |r.view.stages| == |v.stages|
            && forall i :: 0 <= i < |v.stages| ==>
                 r.view.stages[i] == (if v.stages[i].id == id then s else v.stages[i])
    ensures var r := StageAdded(v, status, s);
            r.cb == SuccessCb(s) && r.view.current.None? && r.view.stages == v.stages + [s]
    ensures var r := StageDeleted(v, status, id).stages;
            (forall x :: x in r <==> x in v.stages && x.id != id) && Subseq(r, v.stages)
  {
    FilterIsSubseq(v.stages, (x: Stage) => x.id != id);
  }

  /** The "add stage" draft: `new-<time>`, a client-made id. */
  function NewStageDraft(now: nat): (r: Stage)
    ensures Contains(r.id, "new")
  {
    var id := "new-" + NatToString(now);
    assert id == "new" + ("-" + NatToString(now));
    PrefixContains("new", "-" + NatToString(now));
    Stage(id, "", 0, "", [])
  }

  /** Confirming the "add stage" draft adds, whatever the editor sends. */
  lemma NewDraftAdds(now: nat, body: StageBody)
    ensures Confirm(NewStageDraft(now), body) == AddStage(body)
  {
  }

  /** The screen's state fields. */
  class StagesScreen {
    var stages: seq<Stage>
    var current: Option<Stage>
    var modalOpen: bool

    function State(): View
      reads this
    {
      View(stages, current, modalOpen)
    }

    constructor ()
      ensures State() == View([], None, false)
    {
      stages := [];
      current := None;
      modalOpen := false;
    }

    /** `loadAllStages`: the full-screen loader is on during the request and off after it, whatever the reply. */
    method LoadAllStages(app: AppSlice.AppStore, status: int, fetched: seq<Stage>)
      modifies this, app
      ensures stages == (if status < 400 then fetched else old(stages))
      ensures current == old(current) && modalOpen == old(modalOpen)
      ensures app.State() == AppSlice.ReduceAll(old(app.State()),
                [AppSlice.LoadingFullScreen(Some(true)), AppSlice.LoadingFullScreen(Some(false))])
      ensures !app.State().loadingFullScreen
    {
      ghost var s0 := app.State();
      app.Dispatch(AppSlice.LoadingFullScreen(Some(true)));
      if status < 400 {
        stages := fetched;
      }
      app.Dispatch(AppSlice.LoadingFullScreen(Some(false)));
      ghost var d := [AppSlice.LoadingFullScreen(Some(true)), AppSlice.LoadingFullScreen(Some(false))];
      assert AppSlice.ReduceAll(s0, d) == AppSlice.ReduceAll(AppSlice.Reduce(s0, d[0]), d[1..]);
      assert AppSlice.ReduceAll(AppSlice.Reduce(s0, d[0]), d[1..])
          == AppSlice.ReduceAll(AppSlice.Reduce(AppSlice.Reduce(s0, d[0]), d[1]), d[2..]);
    }

    /** `handleUpdateStage`; an accepted update also shows the reply's message. */
    method HandleUpdateStage(app: AppSlice.AppStore, status: int, body: StageBody, returned: Stage, reply: Json.Json)
      returns (cb: Callback)
      requires body.id.Some?
      modifies this, app
      ensures var r := StageUpdated(old(State()), status, body.id.value, returned);
              State() == r.view && cb == r.cb
      ensures app.State() == (if status < 400 then AppSlice.Reduce(old(app.State()), AppSlice.CallMessage(AppSlice.Message(AppSlice.Success, Json.Get(reply, "message")))) else old(app.State()))
    {
      if status < 400 {
        stages := MapWhere(stages, (s: Stage) => s.id == body.id.value, (s: Stage) => returned);
        current := None;
        cb := SuccessCb(returned);
        app.Dispatch(AppSlice.CallMessage(AppSlice.Message(AppSlice.Success, Json.Get(reply, "message"))));
      } else {
        cb := FailCb;
      }
    }

    /** `handleAddStage`; an accepted add also shows the reply's message. */
    method HandleAddStage(app: AppSlice.AppStore, status: int, first: Stage, reply: Json.Json) returns (cb: Callback)
      modifies this, app
      ensures var r := StageAdded(old(State()), status, first);
              State() == r.view && cb == r.cb
      ensures app.State() == (if status < 400 then AppSlice.Reduce(old(app.State()), AppSlice.CallMessage(AppSlice.Message(AppSlice.Success, Json.Get(reply, "message")))) else old(app.State()))
    {
      if status < 400 {
        stages := stages + [first];
        current := None;
        cb := SuccessCb(first);
        app.Dispatch(AppSlice.CallMessage(AppSlice.Message(AppSlice.Success, Json.Get(reply, "message"))));
      } else {
        cb := FailCb;
      }
    }

    /** `handleDeleteStage`; an accepted delete also shows the reply's message. */
    method HandleDeleteStage(app: AppSlice.AppStore, status: int, stageId: string, reply: Json.Json)
      modifies this, app
      ensures State() == StageDeleted(old(State()), status, stageId)
      ensures app.State() == (if status < 400 then AppSlice.Reduce(old(app.State()), AppSlice.CallMessage(AppSlice.Message(AppSlice.Success, Json.Get(reply, "message")))) else old(app.State()))
    {
      if status < 400 {
        stages := Filter(stages, (s: Stage) => s.id != stageId);
        app.Dispatch(AppSlice.CallMessage(AppSlice.Message(AppSlice.Success, Json.Get(reply, "message"))));
      }
    }

    /** A stage card's "view detail": that stage becomes the open stage. */
    method HandleChangeCurrentStage(stage: Stage)
      modifies this
      ensures State() == old(State()).(current := Some(stage))
    {
      current := Some(stage);
    }

    /** `handleToggleModal`, which a stage card calls with "view detail". */
    method HandleToggleModal()
      modifies this
      ensures State() == old(State()).(modalOpen := !old(modalOpen))
    {
      modalOpen := !modalOpen;
    }

    /** The "add stage" button: a fresh draft and the editor toggled. */
    method HandleAddNewStage(now: nat)
      modifies this
      ensures State() == old(State()).(current := Some(NewStageDraft(now)), modalOpen := !old(modalOpen))
    {
      current := Some(NewStageDraft(now));
      modalOpen := !modalOpen;
    }

    method HandleCancel()
      modifies this
      ensures State() == old(State()).(current := None, modalOpen := !old(modalOpen))
    {
      modalOpen := !modalOpen;
      current := None;
    }

    method HandleConfirm(body: StageBody) returns (req: Request)
      requires current.Some?
      ensures req == Confirm(current.value, body)
    {
      if !Contains(current.value.id, "new") {
        req := UpdateStage(body.(id := Some(current.value.id)));
      } else {
        req := AddStage(body);
      }
    }
  }
}
