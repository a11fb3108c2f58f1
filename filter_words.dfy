/**
 * `FilterWords`: the word filter panel. The topic and part-of-speech
 * selections are stored in the filter record as one comma-joined string, and
 * the topic selection is split back on "," for display.
 */
module FilterWords {
  import opened Js
  import opened Query

  /** The part-of-speech choices offered by the panel. */
  const PartsOfSpeech: seq<string> := [
    "noun", "pronoun", "verb", "adverb", "adjective", "preposition",
    "conjunction", "interjection", "idiom", "phrase", "determiner"
  ]

  /** The `options` argument of the select's `onChange`: a list, or a single option. */
  datatype Selection = Many(values: seq<string>) | One(value: string)

  /** The string stored for a selection. */
  function Stored(sel: Selection): string
  {
    match sel
    case Many(values) => Join(values, ",")
    case One(value) => value
  }

  /** Choosing topics. */
  function ChangeTopics(filter: Params, sel: Selection): Params
  {
    SetParam(filter, "topics", Text(Stored(sel)))
  }

  /** Choosing parts of speech. */
  function ChangePoses(filter: Params, sel: Selection): Params
  {
    SetParam(filter, "poses", Text(Stored(sel)))
  }

  /** The topic ids the select displays: the stored string split on ",", or none when it is empty or absent. */
  function DisplayedTopics(filter: Params): seq<string>
  {
    match Lookup(filter, "topics")
    case Some(Text(s)) => if s != "" then Split(s, ',') else []
    case _ => []
  }

  lemma {:induction false} JoinOfNonEmptyIsNonEmpty(xs: seq<string>, sep: string)
    requires xs != [] && xs[0] != ""
    ensures Join(xs, sep) != ""
  {
    if |xs| > 1 {
      assert Join(xs, sep) == xs[0] + sep + Join(xs[1..], sep);
      assert |Join(xs, sep)| >= |xs[0]|;
    }
  }

  /**
   * Storing a list of topic ids and displaying it gives back the same ids in
   * the same order, provided no id is empty or contains ","; an empty
   * selection displays as none.
   */
  lemma TopicsRoundTrip(filter: Params, ids: seq<string>)
    requires forall i :: 0 <= i < |ids| ==> ids[i] != "" && ',' !in ids[i]
    ensures DisplayedTopics(ChangeTopics(filter, Many(ids))) == ids
  {
    SetParamOnlyThatKey(filter, "topics", Text(Join(ids, ",")), "topics");
    if ids != [] {
      JoinOfNonEmptyIsNonEmpty(ids, ",");
      SplitJoin(ids, ',');
    }
  }

  /** A single option is stored as its value, unchanged; other filter keys keep their values. */
  lemma SingleOptionStoredUnchanged(filter: Params, v: string, other: string)
    ensures Lookup(ChangeTopics(filter, One(v)), "topics") == Some(Text(v))
    ensures other != "topics" ==> Lookup(ChangeTopics(filter, One(v)), other) == Lookup(filter, other)
  {
    SetParamOnlyThatKey(filter, "topics", Text(v), other);
  }

  lemma NoCommaInPartsOfSpeech()
    ensures forall p :: p in PartsOfSpeech ==> ',' !in p
  {
    assert PartsOfSpeech == ["noun", "pronoun", "verb", "adverb", "adjective", "preposition",
      "conjunction", "interjection", "idiom", "phrase", "determiner"];
  }

  lemma ChosenPosesHaveNoComma(poses: seq<string>)
    requires forall i :: 0 <= i < |poses| ==> poses[i] in PartsOfSpeech
    ensures forall i :: 0 <= i < |poses| ==> ',' !in poses[i]
  {
    NoCommaInPartsOfSpeech();
  }

  /**
   * Parts of speech are stored with the same comma join, and a choice of
   * parts none of which contains "," (as no offered part does, by
   * `ChosenPosesHaveNoComma`) splits back from the stored string.
   */
  lemma PosesStoredAsCommaList(filter: Params, poses: seq<string>)
    requires poses != []
    requires forall i :: 0 <= i < |poses| ==> ',' !in poses[i]
    ensures Lookup(ChangePoses(filter, Many(poses)), "poses") == Some(Text(Join(poses, ",")))
    ensures Split(Join(poses, ","), ',') == poses
  {
    SetParamOnlyThatKey(filter, "poses", Text(Join(poses, ",")), "poses");
    SplitJoin(poses, ',');
  }
}
