/**
 * The words screen: page bookkeeping for the paged word list, filtering,
 * bulk delete, the word-update listener, and the "add word" draft.
 */
module WordsManagement {
  import opened Js
  import opened Lists
  import opened Types
  import WordSlice
  import AppSlice
  import Json
  import opened Paging
  import ActionWordModal

  datatype Screen = Screen(words: seq<Word>, info: PageInfo)

  /** The reply to `getWordsInfo`: the words are shown, and the page is `needPage` only if words came back. */
  function WordsLoaded(s: Screen, status: int, needPage: int, size: int, got: seq<Word>, total: int): Screen
  {
    if status >= 400 then s
    else Screen(got, PageInfo(if |got| > 0 then needPage else needPage - 1, size, total))
  }

  /**
   * Loading page p asks for backend page p - 1; on success the list is the
   * reply's words, the size and total are recorded, and the current page is
   * p when words came back and p - 1 otherwise; on failure nothing changes.
   */
  lemma WordsLoadedSpec(s: Screen, status: int, needPage: int, size: int, got: seq<Word>, total: int)
    ensures PageRequestFor(needPage, size).page == needPage - 1
    ensures status >= 400 ==> WordsLoaded(s, status, needPage, size, got, total) == s
    ensures status < 400 ==>
              var r := WordsLoaded(s, status, needPage, size, got, total);
              r.words == got && r.info.size == size && r.info.totalRecords == total
              && (|got| > 0 ==> r.info.currPage == needPage)
              && (got == [] ==> r.info.currPage == needPage - 1)
  {
  }

  /** `handleFilterWords` always asks for backend page 0 with the current size. */
  function FilterRequest(s: Screen): PageRequest
  {
    PageRequest(0, s.info.size)
  }

  /** The reply to a filter: the words are shown and the page becomes 1, the size unchanged. */
  function Filtered(s: Screen, status: int, got: seq<Word>, total: int): Screen
  {
    if status >= 400 then s
    else Screen(got, s.info.(currPage := 1, totalRecords := total))
  }

  /** A filter starts from the first page whatever page was shown. */
  lemma FilteredSpec(s: Screen, status: int, got: seq<Word>, total: int)
    ensures FilterRequest(s) == PageRequest(0, s.info.size)
    ensures status < 400 ==>
              Filtered(s, status, got, total) == Screen(got, PageInfo(1, s.info.size, total))
    ensures status >= 400 ==> Filtered(s, status, got, total) == s
  {
  }

  /** `handleReload` as written: the current page goes to `getWordsInfo` as it is. */
  function ReloadRequestAsWritten(info: PageInfo): PageRequest
  {
    PageRequestFor(info.currPage, info.size)
  }

  /** After an empty first page the recorded page is 0, and reloading as written asks for backend page -1. */
  lemma ReloadAfterEmptyFirstPage(s: Screen, total: int)
    ensures var r := WordsLoaded(s, 200, 1, 10, [], total);
            r.info.currPage == 0 && ReloadRequestAsWritten(r.info).page == -1
            && ReloadRequest(r.info).page == 0
  {
  }

  /** Every page the screen records after a load of a page p >= 1 is at least 0. */
  lemma LoadedPagesNotNegative(s: Screen, status: int, needPage: int, size: int, got: seq<Word>, total: int)
    requires s.info.currPage >= 0 && needPage >= 1
    ensures WordsLoaded(s, status, needPage, size, got, total).info.currPage >= 0
    ensures ReloadRequest(WordsLoaded(s, status, needPage, size, got, total).info).page >= 0
  {
  }

  /** `handleDeleteWords`: only a 200 reply removes the ids. */
  function DeleteWords(words: seq<Word>, ids: seq<string>, status: int): seq<Word>
  {
    if status == 200 then Filter(words, (w: Word) => w.id !in ids) else words
  }

  /** A confirmed delete removes exactly the given ids and keeps the order; any other status, even another 2xx, changes nothing. */
  lemma DeleteWordsSpec(words: seq<Word>, ids: seq<string>, status: int)
    ensures status != 200 ==> DeleteWords(words, ids, status) == words
    ensures status == 200 ==>
              (forall w :: w in DeleteWords(words, ids, status) <==> w in words && w.id !in ids)
              && Subseq(DeleteWords(words, ids, status), words)
  {
    FilterIsSubseq(words, (w: Word) => w.id !in ids);
  }

  /**
   * `handleListenVocabUpdate` as written: the lookup runs on `snapshot`,
   * the list the listener captured when it was registered, while the
   * update applies to the current list.
   */
  function ListenAsWritten(snapshot: seq<Word>, current: seq<Word>, updated: Word): seq<Word>
  {
    var found := Find(snapshot, (w: Word) => w.id == updated.id);
    if found.Some? && found.value.id != "" then MapWhere(current, (w: Word) => w.id == updated.id, (w: Word) => updated)
    else current + [updated]
  }

  /** The update the listener intends: replace the word when the current list has it, otherwise append it. */
  function Upsert(current: seq<Word>, updated: Word): seq<Word>
  {
    ListenAsWritten(current, current, updated)
  }

  /**
   * The listener is registered once, on the first render, so its snapshot
   * is the empty list; a word already listed is then appended a second time.
   */
  lemma StaleSnapshotDuplicates(w: Word)
    requires w.id != ""
    ensures ListenAsWritten([], [w], w) == [w, w]
    ensures Upsert([w], w) == [w]
  {
    assert Find([w], (x: Word) => x.id == w.id) == Some(w);
  }

  predicate DistinctIds(words: seq<Word>)
  {
    forall i, j :: 0 <= i < j < |words| ==> words[i].id != words[j].id
  }

  /**
   * The intended update replaces the same-id word in place when there is
   * one and appends otherwise, so a list with distinct ids keeps them.
   */
  lemma UpsertSpec(current: seq<Word>, updated: Word)
    requires updated.id != ""
    ensures (exists i :: 0 <= i < |current| && current[i].id == updated.id) ==>
              |Upsert(current, updated)| == |current|
              && forall i :: 0 <= i < |current| ==>
                   Upsert(current, updated)[i] == (if current[i].id == updated.id then updated else current[i])
    ensures (forall i :: 0 <= i < |current| ==> current[i].id != updated.id) ==>
              Upsert(current, updated) == current + [updated]
    ensures DistinctIds(current) ==> DistinctIds(Upsert(current, updated))
  {
    var found := Find(current, (w: Word) => w.id == updated.id);
    if found.Some? {
      var r := Upsert(current, updated);
      assert r == MapWhere(current, (w: Word) => w.id == updated.id, (w: Word) => updated);
      if DistinctIds(current) {
        forall i, j | 0 <= i < j < |r| ensures r[i].id != r[j].id {
          if current[i].id == updated.id {
            assert current[j].id != updated.id;
          }
        }
      }
    }
  }

  /** `{...today, isToday: true}`: the word of the day as it is opened. */
  function TodayWord(today: Word): Word
  {
    today.(isToday := true)
  }

  /**
   * The word modal's title follows how the word was opened: a stored word
   * of the day is titled "today-word", a stored word opened from the table
   * "update-word", and the "new" draft "add-new-word"; the word of the day
   * is otherwise the server's record unchanged.
   */
  lemma TitleFollowsOpening(today: Word, listed: Word)
    requires !Contains(today.id, "new") && !Contains(listed.id, "new") && !listed.isToday
    ensures ActionWordModal.ModalTitle(Some(TodayWord(today))) == "today-word"
    ensures ActionWordModal.ModalTitle(Some(listed)) == "update-word"
    ensures ActionWordModal.ModalTitle(Some(NewWordDraft)) == "add-new-word"
    ensures TodayWord(today).(isToday := today.isToday) == today
  {
    assert IsPrefix("new", NewWordDraft.id);
    PrefixContains("new", "");
    assert "new" + "" == "new";
  }

  /** `handleAddWord`'s draft: a word whose only key is `_id: "new"`. */
  const NewWordDraft := Word("new", "", [], [], [], [], [], false)

  /** The screen's state fields. */
  class WordsScreen {
    var words: seq<Word>
    var pageInfo: PageInfo

    function State(): Screen
      reads this
    {
      Screen(words, pageInfo)
    }

    constructor ()
      ensures State() == Screen([], InitialPage)
    {
      words := [];
      pageInfo := InitialPage;
    }

    method GetWordsInfo(needPage: int, size: int, status: int, got: seq<Word>, total: int) returns (req: PageRequest)
      modifies this
      ensures req == PageRequestFor(needPage, size)
      ensures State() == WordsLoaded(old(State()), status, needPage, size, got, total)
    {
      req := PageRequest(needPage - 1, size);
      if status < 400 {
        words := got;
        pageInfo := pageInfo.(size := size, currPage := if |got| > 0 then needPage else needPage - 1, totalRecords := total);
      }
    }

    method HandleFilterWords(status: int, got: seq<Word>, total: int) returns (req: PageRequest)
      modifies this
      ensures req == FilterRequest(old(State()))
      ensures State() == Filtered(old(State()), status, got, total)
    {
      req := PageRequest(0, pageInfo.size);
      if status < 400 {
        words := got;
        pageInfo := pageInfo.(currPage := 1, totalRecords := total);
      }
    }

    /** Reloads the shown page, reading page 0 as page 1. */
    method HandleReload(status: int, got: seq<Word>, total: int) returns (req: PageRequest)
      modifies this
      ensures req == ReloadRequest(old(pageInfo))
      ensures State() == WordsLoaded(old(State()), status, ReloadPage(old(pageInfo.currPage)), old(pageInfo.size), got, total)
    {
      req := GetWordsInfo(ReloadPage(pageInfo.currPage), pageInfo.size, status, got, total);
    }

    /** `handleDeleteWords`; a deletion answered with 200 also shows the reply's message. */
    method HandleDeleteWords(app: AppSlice.AppStore, ids: seq<string>, status: int, reply: Json.Json)
      modifies this, app
      ensures words == DeleteWords(old(words), ids, status) && pageInfo == old(pageInfo)
      ensures app.State() == (if status == 200
                              then old(app.State()).(message := Some(AppSlice.Message(AppSlice.Success, Json.Get(reply, "message"))))
                              else old(app.State()))
    {
      if status == 200 {
        app.Dispatch(AppSlice.CallMessage(AppSlice.Message(AppSlice.Success, Json.Get(reply, "message"))));
        words := Filter(words, (w: Word) => w.id !in ids);
      }
    }

    /** The listener with the lookup on the current list. */
    method HandleListenVocabUpdate(updated: Word)
      modifies this
      ensures words == Upsert(old(words), updated) && pageInfo == old(pageInfo)
    {
      words := ListenAsWritten(words, words, updated);
    }

    method HandleAddWord(store: WordSlice.WordStore, app: AppSlice.AppStore)
      modifies store, app
      ensures store.State() == old(store.State()).(currentWord := Some(NewWordDraft))
      ensures app.State() == old(app.State()).(openActionWordModal := true)
    {
      store.Dispatch(WordSlice.SetCurrentWord(Some(NewWordDraft)));
      app.Dispatch(AppSlice.ToggleActionWordModal(true));
    }

    /** A row's "view" action: the word becomes the current word and the word modal opens. */
    method HandleViewDetailWord(store: WordSlice.WordStore, app: AppSlice.AppStore, record: Word)
      modifies store, app
      ensures store.State() == old(store.State()).(currentWord := Some(record))
      ensures app.State() == old(app.State()).(openActionWordModal := true)
    {
      store.Dispatch(WordSlice.SetCurrentWord(Some(record)));
      app.Dispatch(AppSlice.ToggleActionWordModal(true));
    }

    /**
     * `handleGetWordOfTheDay`: the modal opens at once; the word of the day
     * becomes the current word when it loads, and the modal closes again
     * when it does not.
     */
    method HandleGetWordOfTheDay(store: WordSlice.WordStore, app: AppSlice.AppStore, status: int, today: Word)
      modifies store, app
      ensures store.State() == (if status < 400 then old(store.State()).(currentWord := Some(TodayWord(today))) else old(store.State()))
      ensures app.State() == old(app.State()).(openActionWordModal := status < 400)
    {
      app.Dispatch(AppSlice.ToggleActionWordModal(true));
      if status < 400 {
        store.Dispatch(WordSlice.SetCurrentWord(Some(TodayWord(today))));
      } else {
        app.Dispatch(AppSlice.ToggleActionWordModal(false));
      }
    }
  }
}
