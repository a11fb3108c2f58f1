/**
 * The records of the vocabulary back end that the dashboard's data logic
 * reads or rewrites, with only the fields that logic touches. Optional
 * string fields are `Val`s so that a missing key, `null` and a string stay
 * apart, as they do under object spread.
 */
module Types {
  import opened Js

  /** A labelled select value `{value, label}`. */
  datatype Choice = Choice(value: Val, caption: string)

  /** `choices.map(c => c.value)`: the values of a multi-select, in order. */
  function ChoiceValues(cs: seq<Choice>): (r: seq<Val>)
    ensures |r| == |cs| && forall i :: 0 <= i < |cs| ==> r[i] == cs[i].value
  {
    seq(|cs|, i requires 0 <= i < |cs| => cs[i].value)
  }

  /** A vocabulary topic; `version` is the `__v` key the server adds to fresh topics. */
  datatype Topic = Topic(id: string, topic: string, image: Val, imageId: Val, version: Option<int>)

  /** One inflected form of a word. */
  datatype Verb = Verb(verbType: string, text: string)

  datatype Pronunciation = Pronunciation(id: string, pos: string, lang: string, url: string, urlId: Val, pron: string)

  datatype Example = Example(id: string, text: string, translation: Val)

  datatype Definition = Definition(
    id: string,
    pos: string,
    source: Val,
    text: Val,
    translation: Val,
    contextualMeaning: Val,
    examples: seq<Example>)

  /** A word; `isToday` is the client-side flag marking the word of the day. */
  datatype Word = Word(
    id: string,
    word: string,
    verbs: seq<Verb>,
    pronunciation: seq<Pronunciation>,
    definition: seq<Definition>,
    synonyms: seq<string>,
    antonyms: seq<string>,
    isToday: bool)

  /**
   * The word an ordering item points at: a server item carries the word's
   * `_id`, an item built from the form carries the select's `value`; both
   * carry the spelled-out `word`.
   */
  datatype ItemText = ItemText(id: Val, value: Val, word: string)

  /**
   * One item of an ordering quiz. The form's position field starts at -1
   * ("unset"); `correctPosition` is `None` only when the user cleared the
   * number input, which then holds `null`.
   */
  datatype OrderingItem = OrderingItem(
    id: string,
    text: ItemText,
    verbForm: Val,
    variation: Val,
    pos: Val,
    correctPosition: Option<int>)

  /** A quiz of a lesson, with the fields the screens compare. */
  datatype Quiz = Quiz(id: string, title: string)

  /** A word listed as new in a lesson. */
  datatype WordRef = WordRef(id: string, word: string)

  /**
   * A lesson as the lesson table holds it: its quizzes are ids, and
   * `newWords` is `None` for a record without that key, such as the
   * template of a new lesson.
   */
  datatype Lesson = Lesson(
    id: string,
    title: string,
    description: string,
    previousLesson: Val,
    newWords: Option<seq<WordRef>>,
    quizIds: seq<string>)

  /** A stage of the course: a topic and a part number, with its lessons. */
  datatype Stage = Stage(id: string, topic: string, part: int, description: string, lessons: seq<Lesson>)
}
