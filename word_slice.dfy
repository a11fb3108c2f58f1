/**
 * The `word` slice of the Redux store: the word open in the word modal, the
 * topic open in the topic modal, and the global topic list.
 */
module WordSlice {
  import opened Js
  import opened Types

  datatype WordState = WordState(currentWord: Option<Word>, currentTopic: Option<Topic>, topics: seq<Topic>)

  const Initial := WordState(None, None, [])

  /** The three setters and the fulfilled actions of `getAllTopics` and `addNewTopics`, with the reply's `data.topics`. */
  datatype Action =
    | SetCurrentWord(word: Option<Word>)
    | SetCurrentTopic(topic: Option<Topic>)
    | SetTopics(topics: seq<Topic>)
    | AllTopicsFetched(fetched: seq<Topic>)
    | TopicsAdded(added: seq<Topic>)

  function Reduce(s: WordState, a: Action): WordState
  {
    match a
    case SetCurrentWord(w) => s.(currentWord := w)
    case SetCurrentTopic(t) => s.(currentTopic := t)
    case SetTopics(ts) => s.(topics := ts)
    case AllTopicsFetched(ts) => s.(topics := ts)
    case TopicsAdded(ts) => s.(topics := s.topics + ts)
  }

  /** Each setter replaces its own field and leaves the other two as they were. */
  lemma SettersReplaceOneField(s: WordState, w: Option<Word>, t: Option<Topic>, ts: seq<Topic>)
    ensures var r := Reduce(s, SetCurrentWord(w));
            r.currentWord == w && r.currentTopic == s.currentTopic && r.topics == s.topics
    ensures var r := Reduce(s, SetCurrentTopic(t));
            r.currentTopic == t && r.currentWord == s.currentWord && r.topics == s.topics
    ensures var r := Reduce(s, SetTopics(ts));
            r.topics == ts && r.currentWord == s.currentWord && r.currentTopic == s.currentTopic
  {
  }

  /**
   * A fetch replaces the list whatever it held; an add keeps every existing
   * topic at its index and puts the new ones after them in their order.
   */
  lemma FetchReplacesAddAppends(s: WordState, ts: seq<Topic>)
    ensures Reduce(s, AllTopicsFetched(ts)).topics == ts
    ensures var r := Reduce(s, TopicsAdded(ts)).topics;
            |r| == |s.topics| + |ts|
            && (forall i :: 0 <= i < |s.topics| ==> r[i] == s.topics[i])
            && (forall j :: 0 <= j < |ts| ==> r[|s.topics| + j] == ts[j])
    ensures Reduce(Reduce(s, TopicsAdded(ts)), AllTopicsFetched(ts)) == Reduce(s, AllTopicsFetched(ts))
  {
  }

  /** Adding two batches one after the other is adding them as one batch. */
  lemma AddsCompose(s: WordState, xs: seq<Topic>, ys: seq<Topic>)
    ensures Reduce(Reduce(s, TopicsAdded(xs)), TopicsAdded(ys)) == Reduce(s, TopicsAdded(xs + ys))
  {
    assert s.topics + xs + ys == s.topics + (xs + ys);
  }

  /** The slice's state, updated in place by its reducers. */
  class WordStore {
    var currentWord: Option<Word>
    var currentTopic: Option<Topic>
    var topics: seq<Topic>

    function State(): WordState
      reads this
    {
      WordState(currentWord, currentTopic, topics)
    }

    constructor ()
      ensures State() == Initial
    {
      currentWord := None;
      currentTopic := None;
      topics := [];
    }

    method Dispatch(a: Action)
      modifies this
      ensures State() == Reduce(old(State()), a)
    {
      match a
      case SetCurrentWord(w) => currentWord := w;
      case SetCurrentTopic(t) => currentTopic := t;
      case SetTopics(ts) => topics := ts;
      case AllTopicsFetched(ts) => topics := ts;
      case TopicsAdded(ts) => topics := topics + ts;
    }
  }
}
