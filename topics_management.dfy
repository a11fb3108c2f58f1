/**
 * The topics screen: its own topic list, kept in step with the topic
 * editor through events, bulk delete, and the template that opens the
 * editor for a new topic.
 */
module TopicsManagement {
  import Json
  import AppSlice
  import opened Js
  import opened Lists
  import opened Types
  import opened WordSlice
  import opened ActionTopicModal

  /** `{...topic, ...payload.topic}`: the event's keys win, keys it lacks keep the listed values. */
  function MergeTopic(prev: Topic, next: Topic): Topic
  {
    Topic(next.id, next.topic, Over(prev.image, next.image), Over(prev.imageId, next.imageId),
          if next.version.Some? then next.version else prev.version)
  }

  /** `handleListenActionWord`. */
  function Listen(topics: seq<Topic>, e: TopicEvent): seq<Topic>
  {
    match e
    case AddEvent(ts) => topics + ts.UnwrapOr([])
    case UpdateEvent(t) => MapWhere(topics, (x: Topic) => x.id == t.id, (x: Topic) => MergeTopic(x, t))
    case DeleteEvent(t) => Filter(topics, (x: Topic) => x.id != t.id)
    case OtherEvent => topics
  }

  /**
   * ADD appends the event's topics (none when it carries none); UPDATE
   * merges the event topic into the same-id topics in place; DELETE removes
   * the topics with the event's id; anything else changes nothing.
   */
  lemma ListenSpec(topics: seq<Topic>, e: TopicEvent)
    ensures e.AddEvent? && e.topics.None? ==> Listen(topics, e) == topics
    ensures e.AddEvent? && e.topics.Some? ==> Listen(topics, e) == topics + e.topics.value
    ensures e.UpdateEvent? ==>
              var r := Listen(topics, e);
              |r| == |topics|
              && forall i :: 0 <= i < |topics| ==>
                   r[i] == (if topics[i].id == e.topic.id then MergeTopic(topics[i], e.topic) else topics[i])
    ensures e.DeleteEvent? ==>
              (forall t :: t in Listen(topics, e) <==> t in topics && t.id != e.topic.id)
              && Subseq(Listen(topics, e), topics)
    ensures e.OtherEvent? ==> Listen(topics, e) == topics
  {
    if e.AddEvent? && e.topics.None? {
      assert topics + [] == topics;
    }
    if e.DeleteEvent? {
      FilterIsSubseq(topics, (x: Topic) => x.id != e.topic.id);
    }
  }

  /** A merge keeps every key the event topic has, so a complete event topic replaces the listed one. */
  lemma MergeTopicSpec(prev: Topic, next: Topic)
    ensures MergeTopic(prev, next).id == next.id && MergeTopic(prev, next).topic == next.topic
    ensures !next.image.Absent? && !next.imageId.Absent? && next.version.Some? ==> MergeTopic(prev, next) == next
    ensures next.image.Absent? ==> MergeTopic(prev, next).image == prev.image
    ensures next.version.None? ==> MergeTopic(prev, next).version == prev.version
  {
  }

  /**
   * The screen stays in step with the slice: when both lists agreed, after
   * an update reply that returned a complete topic, or after an add reply,
   * the screen's list after the event equals the slice's list.
   */
  lemma EventsKeepListsInStep(s: WordState, status: int, updated: Topic, shown: Option<Topic>, added: seq<Topic>)
    requires status < 400
    ensures !updated.image.Absent? && !updated.imageId.Absent? && updated.version.Some? ==>
              var r := UpdateReplied(s, status, updated.id, updated);
              Listen(s.topics, r.event.value) == r.state.topics
    ensures var r := AddReplied(s, status, shown, added);
            Listen(s.topics, r.event.value) == r.state.topics
  {
  }

  /** `handleDeleteTopics`: on success the ids leave the screen's list and the slice's list. */
  function DeleteTopics(local: seq<Topic>, global: seq<Topic>, ids: seq<string>, status: int): (seq<Topic>, seq<Topic>)
  {
    if status >= 400 then (local, global)
    else (Filter(local, (t: Topic) => t.id !in ids), Filter(global, (t: Topic) => t.id !in ids))
  }

  /** A successful bulk delete removes exactly the listed ids from both lists, keeping order; a failed one changes neither. */
  lemma DeleteTopicsSpec(local: seq<Topic>, global: seq<Topic>, ids: seq<string>, status: int)
    ensures status >= 400 ==> DeleteTopics(local, global, ids, status) == (local, global)
    ensures status < 400 ==>
              var (l, g) := DeleteTopics(local, global, ids, status);
              (forall t :: t in l <==> t in local && t.id !in ids)
              && (forall t :: t in g <==> t in global && t.id !in ids)
              && Subseq(l, local) && Subseq(g, global)
  {
    FilterIsSubseq(local, (t: Topic) => t.id !in ids);
    FilterIsSubseq(global, (t: Topic) => t.id !in ids);
  }

  /** `handleAddNewTopic`'s template. */
  const Template := Topic("new", "", Str(""), Str(""), None)

  /** The template opens the editor, and submitting it with a name adds a topic. */
  lemma TemplateOpensEditorForAdd(s: WordState, name: string)
    requires !IsBlank(name)
    ensures IsOpen(s.(currentTopic := Some(Template)))
    ensures SubmitRequest(Some(Template), name) == AddTopics([name])
  {
    assert "new" == "new" + "";
    PrefixContains("new", "");
  }

  /** `handleGetAllTopics`: a successful fetch replaces the screen's list. */
  function Fetched(topics: seq<Topic>, status: int, fetched: seq<Topic>): seq<Topic>
  {
    if status < 400 then fetched else topics
  }

  /** The screen's own topic list. */
  class TopicsScreen {
    var topics: seq<Topic>

    constructor ()
      ensures topics == []
    {
      topics := [];
    }

    method HandleGetAllTopics(status: int, fetched: seq<Topic>)
      modifies this
      ensures topics == Fetched(old(topics), status, fetched)
    {
      if status < 400 {
        topics := fetched;
      }
    }

    method HandleListenActionWord(e: TopicEvent)
      modifies this
      ensures topics == Listen(old(topics), e)
    {
      match e
      case AddEvent(ts) => topics := topics + ts.UnwrapOr([]);
      case UpdateEvent(t) => topics := MapWhere(topics, (x: Topic) => x.id == t.id, (x: Topic) => MergeTopic(x, t));
      case DeleteEvent(t) => topics := Filter(topics, (x: Topic) => x.id != t.id);
      case OtherEvent =>
    }

    method HandleDeleteTopics(store: WordStore, app: AppSlice.AppStore, ids: seq<string>, status: int, reply: Json.Json)
      modifies this, store, app
      ensures app.State() == (if status < 400 then AppSlice.Reduce(old(app.State()), AppSlice.CallMessage(AppSlice.Message(AppSlice.Success, Json.Get(reply, "message")))) else old(app.State()))
      ensures (topics, store.topics) == DeleteTopics(old(topics), old(store.topics), ids, status)
      ensures store.currentWord == old(store.currentWord) && store.currentTopic == old(store.currentTopic)
    {
      if status < 400 {
        app.Dispatch(AppSlice.CallMessage(AppSlice.Message(AppSlice.Success, Json.Get(reply, "message"))));
        topics := Filter(topics, (t: Topic) => t.id !in ids);
        store.Dispatch(SetTopics(Filter(store.topics, (t: Topic) => t.id !in ids)));
      }
    }

    method HandleOpenActionTopicModal(store: WordStore, record: Topic)
      modifies store
      ensures store.State() == old(store.State()).(currentTopic := Some(record))
    {
      store.Dispatch(SetCurrentTopic(Some(record)));
    }

    method HandleAddNewTopic(store: WordStore)
      modifies store
      ensures store.State() == old(store.State()).(currentTopic := Some(Template))
      ensures IsOpen(store.State())
    {
      store.Dispatch(SetCurrentTopic(Some(Template)));
    }
  }
}
