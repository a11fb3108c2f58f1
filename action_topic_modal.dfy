/**
 * The topic editor: which request a submit sends, and how a reply to a
 * submit or to an image upload or delete rewrites the `word` slice's
 * current topic and topic list and what it tells the topics screen.
 */
module ActionTopicModal {
  import Json
  import AppSlice
  import opened Js
  import opened Lists
  import opened Types
  import opened WordSlice

  /** What the editor tells the topics screen through the event bus. */
  datatype TopicEvent =
    | AddEvent(topics: Option<seq<Topic>>)
    | UpdateEvent(topic: Topic)
    | DeleteEvent(topic: Topic)
    | OtherEvent

  /** The request a submit sends, if any. */
  datatype Request = NoRequest | UpdateTopic(id: string, name: string) | AddTopics(names: seq<string>)

  /** `handleSubmitForm`: nothing without an open topic id or with a blank name; an id without "new" updates, any other adds. */
  function SubmitRequest(current: Option<Topic>, name: string): Request
  {
    if current.None? || current.value.id == "" || IsBlank(name) then NoRequest
    else if !Contains(current.value.id, "new") then UpdateTopic(current.value.id, name)
    else AddTopics([name])
  }

  /**
   * Nothing is sent exactly when no topic with an id is open or the name is
   * blank; otherwise an id without "new" is updated and any other id adds
   * one topic; the name goes as typed, untrimmed.
   */
  lemma SubmitRouting(current: Option<Topic>, name: string)
    ensures SubmitRequest(current, name).NoRequest? <==> current.None? || current.value.id == "" || IsBlank(name)
    ensures SubmitRequest(current, name).UpdateTopic? <==>
              current.Some? && current.value.id != "" && !IsBlank(name) && !Contains(current.value.id, "new")
    ensures SubmitRequest(current, name).UpdateTopic? ==>
              SubmitRequest(current, name) == UpdateTopic(current.value.id, name)
    ensures SubmitRequest(current, name).AddTopics? ==> SubmitRequest(current, name).names == [name]
  {
  }

  /** The new slice state and the event the screen receives, if any. */
  datatype Outcome = Outcome(state: WordState, event: Option<TopicEvent>)

  /** `_.omit(topic, ["__v"])` on every topic. */
  function WithoutVersion(ts: seq<Topic>): (r: seq<Topic>)
    ensures |r| == |ts| && forall i :: 0 <= i < |ts| ==> r[i] == ts[i].(version := None)
  {
    seq(|ts|, i requires 0 <= i < |ts| => ts[i].(version := None))
  }

  /** The list with the topic of that id replaced. */
  function ReplaceTopic(ts: seq<Topic>, id: string, t: Topic): seq<Topic>
  {
    MapWhere(ts, (x: Topic) => x.id == id, (x: Topic) => t)
  }

  /** The reply to an update: the returned topic is shown and replaces the same-id topic. */
  function UpdateReplied(s: WordState, status: int, id: string, updated: Topic): Outcome
  {
    if status >= 400 then Outcome(s, None)
    else Outcome(s.(currentTopic := Some(updated), topics := ReplaceTopic(s.topics, id, updated)), Some(UpdateEvent(updated)))
  }

  /** The reply to an add: the reply's `topic` is shown and its `topics` go last without `__v`. */
  function AddReplied(s: WordState, status: int, shown: Option<Topic>, added: seq<Topic>): Outcome
  {
    if status >= 400 then Outcome(s, None)
    else Outcome(s.(currentTopic := shown, topics := s.topics + WithoutVersion(added)), Some(AddEvent(Some(WithoutVersion(added)))))
  }

  /** The reply to an image upload (the new image) or delete (`null`s). */
  function ImageReplied(s: WordState, status: int, current: Topic, image: Val, imageId: Val): Outcome
  {
    var next := current.(image := image, imageId := imageId);
    if status >= 400 then Outcome(s, None)
    else Outcome(s.(currentTopic := Some(next), topics := ReplaceTopic(s.topics, current.id, next)), Some(UpdateEvent(next)))
  }

  function ImageDeleted(s: WordState, status: int, current: Topic): Outcome
  {
    ImageReplied(s, status, current, Null, Null)
  }

  /** A failed reply changes nothing and tells the screen nothing. */
  lemma FailedReplyChangesNothing(s: WordState, status: int, id: string, t: Topic, shown: Option<Topic>, ts: seq<Topic>, image: Val, imageId: Val)
    requires status >= 400
    ensures UpdateReplied(s, status, id, t) == Outcome(s, None)
    ensures AddReplied(s, status, shown, ts) == Outcome(s, None)
    ensures ImageReplied(s, status, t, image, imageId) == Outcome(s, None)
  {
  }

  /**
   * An update replaces exactly the topics with the sent id by the returned
   * topic, keeps the others and the order, shows the returned topic and
   * announces it.
   */
  lemma UpdateRepliedSpec(s: WordState, status: int, id: string, updated: Topic)
    requires status < 400
    ensures var r := UpdateReplied(s, status, id, updated);
            r.state.currentTopic == Some(updated) && r.state.currentWord == s.currentWord
            && |r.state.topics| == |s.topics|
            && (forall i :: 0 <= i < |s.topics| ==>
                  r.state.topics[i] == (if s.topics[i].id == id then updated else s.topics[i]))
            && r.event == Some(UpdateEvent(updated))
  {
  }

  /** An add keeps every topic in place and appends the returned ones, each without `__v`. */
  lemma AddRepliedSpec(s: WordState, status: int, shown: Option<Topic>, added: seq<Topic>)
    requires status < 400
    ensures var r := AddReplied(s, status, shown, added);
            |r.state.topics| == |s.topics| + |added|
            && r.state.topics[..|s.topics|] == s.topics
            && (forall j :: 0 <= j < |added| ==>
                  r.state.topics[|s.topics| + j] == added[j].(version := None)
                  && r.state.topics[|s.topics| + j].version.None?)
            && r.state.currentTopic == shown
  {
    assert (s.topics + WithoutVersion(added))[..|s.topics|] == s.topics;
  }

  /**
   * An image change gives the open topic the new image and image id (both
   * `null` after a delete), keeps its other fields, and puts that copy in
   * place of the same-id topic in the list.
   */
  lemma ImageRepliedSpec(s: WordState, status: int, current: Topic, image: Val, imageId: Val)
    requires status < 400
    ensures var r := ImageReplied(s, status, current, image, imageId);
            var next := r.state.currentTopic.value;
            r.state.currentTopic.Some? && next.image == image && next.imageId == imageId
            && next.(image := current.image, imageId := current.imageId) == current
            && |r.state.topics| == |s.topics|
            && (forall i :: 0 <= i < |s.topics| ==>
                  r.state.topics[i] == (if s.topics[i].id == current.id then next else s.topics[i]))
    ensures var r := ImageDeleted(s, status, current);
            r.state.currentTopic.value.image == Null && r.state.currentTopic.value.imageId == Null
  {
  }

  /** `handleCancelTopicModal`. */
  function Cancel(s: WordState): WordState
  {
    s.(currentTopic := None)
  }

  /** The modal is open exactly when the current topic has a non-empty id. */
  predicate IsOpen(s: WordState)
  {
    s.currentTopic.Some? && s.currentTopic.value.id != ""
  }

  /** Cancelling closes the editor and changes nothing else; a topic with an id opens it. */
  lemma CancelCloses(s: WordState, t: Topic)
    ensures !IsOpen(Cancel(s)) && Cancel(s).topics == s.topics && Cancel(s).currentWord == s.currentWord
    ensures IsOpen(s.(currentTopic := Some(t))) <==> t.id != ""
  {
  }

  /** The topic editor's own state and its requests into the `word` slice. */
  class TopicModal {
    var confirmLoading: bool

    constructor ()
      ensures !confirmLoading
    {
      confirmLoading := false;
    }

    method HandleCancel(store: WordStore)
      modifies store
      ensures store.State() == Cancel(old(store.State()))
    {
      store.Dispatch(SetCurrentTopic(None));
    }

    /** The first half of a submit: the request; the spinner is left on when nothing is sent. */
    method BeginSubmit(store: WordStore, name: string) returns (req: Request)
      modifies this
      ensures req == SubmitRequest(store.currentTopic, name)
      ensures confirmLoading
    {
      confirmLoading := true;
      var current := store.currentTopic;
      if current.None? || current.value.id == "" || IsBlank(name) {
        return NoRequest;
      }
      if !Contains(current.value.id, "new") {
        req := UpdateTopic(current.value.id, name);
      } else {
        req := AddTopics([name]);
      }
    }

    /** The second half of an update: the reply is applied and the spinner stops. */
    method FinishUpdate(store: WordStore, app: AppSlice.AppStore, req: Request, status: int, updated: Topic, reply: Json.Json)
      returns (event: Option<TopicEvent>)
      requires req.UpdateTopic?
      modifies this, store, app
      ensures app.State() == (if status < 400 then AppSlice.Reduce(old(app.State()), AppSlice.CallMessage(AppSlice.Message(AppSlice.Success, Json.Get(reply, "message")))) else old(app.State()))
      ensures var r := UpdateReplied(old(store.State()), status, req.id, updated);
              store.State() == r.state && event == r.event
      ensures !confirmLoading
    {
      event := None;
      if status < 400 {
        app.Dispatch(AppSlice.CallMessage(AppSlice.Message(AppSlice.Success, Json.Get(reply, "message"))));
        store.Dispatch(SetCurrentTopic(Some(updated)));
        store.Dispatch(SetTopics(ReplaceTopic(store.topics, req.id, updated)));
        event := Some(UpdateEvent(updated));
      }
      confirmLoading := false;
    }

    method FinishAdd(store: WordStore, app: AppSlice.AppStore, status: int, shown: Option<Topic>, added: seq<Topic>, reply: Json.Json)
      returns (event: Option<TopicEvent>)
      modifies this, store, app
      ensures app.State() == (if status < 400 then AppSlice.Reduce(old(app.State()), AppSlice.CallMessage(AppSlice.Message(AppSlice.Success, Json.Get(reply, "message")))) else old(app.State()))
      ensures var r := AddReplied(old(store.State()), status, shown, added);
              store.State() == r.state && event == r.event
      ensures !confirmLoading
    {
      event := None;
      if status < 400 {
        app.Dispatch(AppSlice.CallMessage(AppSlice.Message(AppSlice.Success, Json.Get(reply, "message"))));
        store.Dispatch(SetCurrentTopic(shown));
        var stripped := WithoutVersion(added);
        event := Some(AddEvent(Some(stripped)));
        store.Dispatch(SetTopics(store.topics + stripped));
      }
      confirmLoading := false;
    }

    /** `handleUploadImage` and `handleDeleteImage` once the reply is in; they run only while a topic is open. */
    method HandleImageReply(store: WordStore, app: AppSlice.AppStore, status: int, image: Val, imageId: Val, reply: Json.Json)
      returns (event: Option<TopicEvent>)
      requires store.currentTopic.Some?
      modifies store, app
      ensures app.State() == (if status < 400 then AppSlice.Reduce(old(app.State()), AppSlice.CallMessage(AppSlice.Message(AppSlice.Success, Json.Get(reply, "message")))) else old(app.State()))
      ensures var r := ImageReplied(old(store.State()), status, old(store.currentTopic.value), image, imageId);
              store.State() == r.state && event == r.event
    {
      var current := store.currentTopic.value;
      event := None;
      if status < 400 {
        var next := current.(image := image, imageId := imageId);
        var ts := ReplaceTopic(store.topics, current.id, next);
        store.Dispatch(SetCurrentTopic(Some(next)));
        store.Dispatch(SetTopics(ts));
        event := Some(UpdateEvent(next));
        app.Dispatch(AppSlice.CallMessage(AppSlice.Message(AppSlice.Success, Json.Get(reply, "message"))));
      }
    }
  }
}
