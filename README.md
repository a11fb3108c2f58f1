# vocabup-admin, modelled in Dafny

vocabup-admin is the administration dashboard of the VocabUp
vocabulary-learning platform. Administrators use it to manage words (with
their pronunciations, definitions and examples), topics, lessons and their
quizzes, stages, users and admins, blog posts with their comment threads,
and app notifications. Every screen is a React component. It keeps local
state, calls the backend's REST services, and reports through a Redux
store: the `app` slice holds the session, messages and the full-screen
loader, and the `word` slice holds the cached topics.

This project models the client-side logic of that dashboard:

- the utilities: the query-string builder, the translation-table
  flattener, the ellipsis list and the debounced search select;
- the two Redux slices and the store's hand-written middleware;
- every management screen and editing modal, with the state each one keeps
  and the list updates it applies when a request settles.

A server reply is never fetched. Each handler takes the reply's status
code and payload as parameters. Where the code checks the status, both
outcomes are modelled. Where it does not, the model follows the code,
including the throw when a refused reply lacks a field the handler reads.

How the model is organised:

- Values the source builds and compares are datatypes, and the updates
  applied to them are pure functions.
- A component's state is a class with one field per `useState` hook. Its
  handlers are methods whose `ensures` clauses state the new state as
  that pure function of the old state and the reply.
- Lemmas state what the screens promise: round trips, invariants, what
  stays unchanged, and the error cases.
- The Redux store is the class `AppSlice.AppStore`. It is reduced one
  action at a time, and a handler's effect on the store is stated as the
  fold `ReduceAll` of the actions it dispatches.

Shared modules:

- `Js` holds JavaScript's truthiness, strings, `trim`, `join`, `split`
  and number printing.
- `Json` holds JSON values.
- `Lists` holds `filter`, `map` with a test, and `find`, with their
  lemmas.
- `Paging` holds the 1-based page bookkeeping that most tables share.
- `Types` holds the platform's entities.
- `Members` holds users' addresses.
- `Posts` holds posts and comments.

## Model

| member | source | states |
|---|---|---|
| Query.Segment | vocabup-admin/src/utils/Query.ts:10 | a kept key renders as the key, then "=", then the value's string form, with no percent-encoding |
| Query.Candidates | vocabup-admin/src/utils/Query.ts:6-12 | the `map` step yields one candidate per key, in key order |
| Query.Segments | vocabup-admin/src/utils/Query.ts:5-13 | reference definition: one segment per present key, so never more segments than keys |
| Query.FilterDropsOnlyAbsent | vocabup-admin/src/utils/Query.ts:7-13 | the truthiness filter drops exactly the null, undefined and NaN values; a rendered segment is never empty |
| Query.QueryIsJoinedSegments | vocabup-admin/src/utils/Query.ts:4-15 | the query string is the present keys' segments, in key order, joined by single "&" |
| Query.NoPresentValueGivesEmpty | vocabup-admin/src/utils/Query.ts:5-14 | an empty record, or one whose values are all null, undefined or NaN, yields "" |
| Query.NoPresentNoSegments | vocabup-admin/src/utils/Query.ts:7-13 | with no present value there is no segment |
| Query.FalsyValuesKept | vocabup-admin/src/utils/Query.ts:10-13 | any key holding "", 0 or false contributes its segment "key=", "key=0" or "key=false" |
| Query.QuerySplitsIntoSegments | vocabup-admin/src/utils/Query.ts:14 | when no segment holds "&", splitting the query on "&" gives back exactly the segments: there is no leading, trailing or doubled separator |
| Query.SegmentsAvoid | vocabup-admin/src/utils/Query.ts:10 | a character absent from every present key's segment is absent from every segment |
| Query.SetParam | vocabup-admin/src/routes/WordsManagement/WordsManagement.tsx:84-85 | `{...prev, [key]: val}` keeps every existing key in its place and adds at most one key |
| Query.SetParamOnlyThatKey | vocabup-admin/src/routes/WordsManagement/WordsManagement.tsx:84-85 | after the update the key reads the new value and every other key reads what it read before |
| Query.SetParamKeepsDistinct | vocabup-admin/src/routes/WordsManagement/WordsManagement.tsx:84-85 | the update keeps the record's keys distinct |
| Query.SetParamKeys | vocabup-admin/src/routes/WordsManagement/WordsManagement.tsx:84-85 | every key after the update is the updated key or a key that was there before |
| MessageUtils.FlattenMessages | vocabup-admin/src/utils/MessageUtils.ts:5-27 | the loop over the keys, with its recursive calls, returns exactly the specification table `Flatten` |
| MessageUtils.FlattenFirstGrows | vocabup-admin/src/utils/MessageUtils.ts:14-21 | the accumulator only gains keys as the `reduce` proceeds |
| MessageUtils.FlattenSound | vocabup-admin/src/utils/MessageUtils.ts:9-25 | every key of the accumulator is the dotted path of a text below the keys seen so far, and holds such a text |
| MessageUtils.FlattenComplete | vocabup-admin/src/utils/MessageUtils.ts:9-25 | the dotted path of every text below the keys seen so far is a key of the accumulator |
| MessageUtils.FlattenCompleteLast | vocabup-admin/src/utils/MessageUtils.ts:12-21 | a text below the key just processed is written under its dotted path, directly or through the nested table's merge |
| MessageUtils.KeysAreTextPaths | vocabup-admin/src/utils/MessageUtils.ts:5-27 | the flat table's keys are exactly the dotted paths of the nested table's texts, and each holds a text found at its path: every value is a string and nested tables never appear as values |
| MessageUtils.DottedBelow | vocabup-admin/src/utils/MessageUtils.ts:12-17 | below a non-empty prefix a path is emitted as prefix + "." + the keys joined by "." |
| MessageUtils.DottedFromTop | vocabup-admin/src/utils/MessageUtils.ts:12 | from the empty prefix a path k1..kn is emitted as "k1.….kn", with no leading dot |
| MessageUtils.FlattenFirstPrefix | vocabup-admin/src/utils/MessageUtils.ts:9-25 | the accumulator after the first n keys does not depend on the keys after them |
| MessageUtils.EmptyGroupAddsNothing | vocabup-admin/src/utils/MessageUtils.ts:15-18 | an empty nested table contributes no entries |
| MessageUtils.LaterTextWins | vocabup-admin/src/utils/MessageUtils.ts:20 | a text written under a key already present overwrites the earlier value |
| MessageUtils.FlatFirst | vocabup-admin/src/utils/MessageUtils.ts:9-25 | on a table of texts with distinct keys, the accumulator after n keys holds exactly those n keys with their texts |
| MessageUtils.FlatInputIsFixedPoint | vocabup-admin/src/utils/MessageUtils.ts:5-27 | a table whose values are all texts is returned with the same entries |
| TextEllipsis.RenderSplitsList | vocabup-admin/src/components/TextEllipsis.tsx:22-33 | the list splits into a visible prefix of `amount` items (the whole list when shorter) and a hidden rest; the separator, tooltip and "+N" marker appear exactly when the rest is non-empty, the tooltip lists the rest and N counts it |
| TextEllipsis.VisibleThenTooltipIsWholeList | vocabup-admin/src/components/TextEllipsis.tsx:22-26 | with at least one visible item, the visible part followed by the separator and the tooltip (when shown) spells the whole list joined by ", ": nothing lost or repeated, and a short list is shown whole |
| DebounceSelect.OnlyLatestResultShown | vocabup-admin/src/components/DebounceSelect.tsx:34-46 | after any sequence of searches and replies, the fetch counter counts the searches, a pending search shows no options, and the options shown come from the reply to the latest search |
| DebounceSelect.UnansweredEventsChangeNothing | vocabup-admin/src/components/DebounceSelect.tsx:39-46 | any run of rejections and of replies to superseded searches, in any order, leaves the state as it was |
| DebounceSelect.LatestLookupPendingUntilAnswered | vocabup-admin/src/components/DebounceSelect.tsx:35-46 | after a search, the options stay empty and fetching stays on until that search's own reply arrives; its rejection, or older replies, never end the loading state |
| DebounceSelect.RaceShowsSecondAnswer | vocabup-admin/src/components/DebounceSelect.tsx:35-45 | with two searches in flight, the second one's options are shown whichever reply arrives first |
| DebounceSelect.DebouncedSelect.constructor | vocabup-admin/src/components/DebounceSelect.tsx:30-32 | the select starts idle, with no options and the counter at 0 |
| DebounceSelect.DebouncedSelect.LoadOptions | vocabup-admin/src/components/DebounceSelect.tsx:34-38 | a search increments the counter, returns its new value as the fetch id, empties the options and starts fetching |
| DebounceSelect.DebouncedSelect.OnLookupResult | vocabup-admin/src/components/DebounceSelect.tsx:39-46 | a reply is applied as the transition `Step` |
| FilterWords.JoinOfNonEmptyIsNonEmpty | vocabup-admin/src/components/FilterWords.tsx:61 | a join whose first item is non-empty is non-empty, so a stored selection is displayed by splitting it |
| FilterWords.TopicsRoundTrip | vocabup-admin/src/components/FilterWords.tsx:60-73 | storing topic ids and displaying them gives back the same ids in the same order, when no id is empty or holds ","; an empty selection displays as none |
| FilterWords.SingleOptionStoredUnchanged | vocabup-admin/src/components/FilterWords.tsx:67-73 | a single option is stored as its value, and the other filter keys keep their values |
| FilterWords.NoCommaInPartsOfSpeech | vocabup-admin/src/components/FilterWords.tsx:18-30 | no offered part of speech contains "," |
| FilterWords.ChosenPosesHaveNoComma | vocabup-admin/src/components/FilterWords.tsx:86-100 | a choice made from the offered parts of speech contains no "," |
| FilterWords.PosesStoredAsCommaList | vocabup-admin/src/components/FilterWords.tsx:94-100 | parts of speech are stored comma-joined under "poses", and a choice with no "," in it splits back from the stored string |
| AppSlice.RejectionMessage | vocabup-admin/src/redux/slice/appSlice.ts:85-90 | a rejection message is an error whose content is the reply's message, or the fixed "unknown error" text when that is falsy, so it is never empty |
| AppSlice.LogoutOnlySignsOut | vocabup-admin/src/redux/slice/appSlice.ts:33-37 | logout clears authentication and resets the tab to "1", changes nothing else, and is idempotent |
| AppSlice.LoadingToggleAndSet | vocabup-admin/src/redux/slice/appSlice.ts:50-54 | an undefined payload toggles the loader, so two toggles restore the state; a boolean payload sets it, idempotently |
| AppSlice.UpdateAccountInfoMerges | vocabup-admin/src/redux/slice/appSlice.ts:55-60 | the patch's keys take the patch's values, the admin's other keys keep theirs, no other key appears, only `admin` changes, and applying the same patch twice is applying it once |
| AppSlice.LoginOutcomes | vocabup-admin/src/redux/slice/appSlice.ts:67-91 | a pending login signs out and clears the admin; a rejected one also shows an error with the reply's message or the fallback text; a fulfilled one signs in with the returned admin and shows the reply's message as a success |
| AppSlice.AccountInfoOutcomes | vocabup-admin/src/redux/slice/appSlice.ts:92-108 | fetching the account turns the loader on; success turns it off and stores the admin; failure turns it off, clears the admin and shows the rejection message; authentication is untouched |
| AppSlice.SettersWriteOwnField | vocabup-admin/src/redux/slice/appSlice.ts:38-63 | each plain setter writes its own field and nothing else |
| AppSlice.ReduceAllAppend | vocabup-admin/src/store.ts:43-48 | dispatching two action sequences one after the other is dispatching their concatenation |
| AppSlice.AppStore.constructor | vocabup-admin/src/redux/slice/appSlice.ts:18-27 | the `app` slice starts authenticated, on tab "1", idle, with no admin, no message, the word modal closed, no loader and Vietnamese |
| AppSlice.AppStore.Dispatch | vocabup-admin/src/redux/slice/appSlice.ts:29-110 | dispatching an action replaces the slice's state by the reducer's result |
| WordSlice.SettersReplaceOneField | vocabup-admin/src/redux/slice/wordSlice.ts:22-30 | each setter replaces its own field and keeps the other two |
| WordSlice.FetchReplacesAddAppends | vocabup-admin/src/redux/slice/wordSlice.ts:33-39 | fetching all topics replaces the list; adding topics appends them after the existing ones in order; a fetch after an add discards the add |
| WordSlice.AddsCompose | vocabup-admin/src/redux/slice/wordSlice.ts:37-39 | two adds in a row are one add of both lists |
| WordSlice.WordStore.constructor | vocabup-admin/src/redux/slice/wordSlice.ts:12-16 | the `word` slice starts with no current word, no current topic and no topics |
| WordSlice.WordStore.Dispatch | vocabup-admin/src/redux/slice/wordSlice.ts:18-41 | dispatching an action replaces the slice's state by the reducer's result |
| Store.Dispatches | vocabup-admin/src/store.ts:58-97 | every failed request first turns the loader off and then dispatches at least one more action |
| Store.Classification | vocabup-admin/src/store.ts:61-97 | the interceptor logs out exactly when there is no response or the status is 401 or 403; it closes the word modal exactly for 401 and 403; no response shows the connection error; 401 and 403 show no message; any other status shows one error message |
| Store.ErrorContentByStatus | vocabup-admin/src/store.ts:51-89 | the message is the fixed "endpoint not found" text for 404, the whole body above 500, and the body's `message` otherwise, 500 included |
| Store.NeverRethrows | vocabup-admin/src/store.ts:71-99 | the interceptor resolves instead of rejecting: with an empty data placeholder when there is no response, else with the error object itself |
| Store.StateAfterError | vocabup-admin/src/store.ts:58-97 | after any failure the loader is off; no response signs out (back on the first menu tab) with the connection error; 401 and 403 sign out and close the word modal, keeping the message; any other status changes only the loader and the message; in each branch no other store field changes |
| Store.Intercept | vocabup-admin/src/store.ts:56-101 | the interceptor dispatches exactly `Dispatches(err)` and returns `Returned(err)` |
| Paging.ReloadRepeatsLastLoad | vocabup-admin/src/routes/UsersManagement/UsersManagement.tsx:116-118 | a reload asks again for the page last loaded, reads page 0 as page 1 (so the initial page reloads backend page 0 of ten), never asks for a negative page from a non-negative one, and keeps the size |
| WordsManagement.WordsLoadedSpec | vocabup-admin/src/routes/WordsManagement/WordsManagement.tsx:59-78 | loading page p asks for backend page p - 1; on success the words, the size and the total come from the reply and the page becomes p, or p - 1 when no word came back; a failure changes nothing |
| WordsManagement.FilteredSpec | vocabup-admin/src/routes/WordsManagement/WordsManagement.tsx:130-148 | filtering asks for backend page 0 with the current size; on success the words and total come from the reply and the page becomes 1; a failure changes nothing |
| WordsManagement.ReloadAfterEmptyFirstPage | vocabup-admin/src/routes/WordsManagement/WordsManagement.tsx:72-89 | after an empty first page the screen is on page 0, and the reload as written asks for backend page -1 where the corrected reload asks for page 0 |
| WordsManagement.LoadedPagesNotNegative | vocabup-admin/src/routes/WordsManagement/WordsManagement.tsx:72-89 | loading any page from 1 up leaves the screen on a page of at least 0, from which the corrected reload never asks for a negative page |
| WordsManagement.DeleteWordsSpec | vocabup-admin/src/routes/WordsManagement/WordsManagement.tsx:113-125 | only a 200 reply deletes: the words kept are exactly those whose id is not among the deleted ids, in their order; any other status keeps the list |
| WordsManagement.StaleSnapshotDuplicates | vocabup-admin/src/routes/WordsManagement/WordsManagement.tsx:150-176 | the listener registered on the first render looks words up in that render's empty list, so an update for a listed word appends it a second time, where the intended update replaces it |
| WordsManagement.UpsertSpec | vocabup-admin/src/routes/WordsManagement/WordsManagement.tsx:153-168 | the intended update replaces the same-id word in place, keeping the length, or appends the word when no listed word has its id; distinct ids stay distinct |
| WordsManagement.WordsScreen.constructor | vocabup-admin/src/routes/WordsManagement/WordsManagement.tsx:42-46 | no words, page 0 of size 10, total 0 |
| WordsManagement.WordsScreen.GetWordsInfo | vocabup-admin/src/routes/WordsManagement/WordsManagement.tsx:59-82 | the request and the new state are those of `WordsLoaded`; `handleChangePage` is this call |
| WordsManagement.WordsScreen.HandleFilterWords | vocabup-admin/src/routes/WordsManagement/WordsManagement.tsx:130-148 | the request and the new state are those of `Filtered` |
| WordsManagement.WordsScreen.HandleReload | vocabup-admin/src/routes/WordsManagement/WordsManagement.tsx:87-89 | the corrected reload: it asks for the page shown, with page 0 read as page 1, and applies the reply as a load of that page |
| WordsManagement.WordsScreen.HandleDeleteWords | vocabup-admin/src/routes/WordsManagement/WordsManagement.tsx:113-128 | a 200 reply removes the deleted words and shows the reply's message; any other status changes neither the list nor the store |
| WordsManagement.WordsScreen.HandleListenVocabUpdate | vocabup-admin/src/routes/WordsManagement/WordsManagement.tsx:153-168 | the corrected listener applies `Upsert` to the current list |
| WordsManagement.WordsScreen.HandleAddWord | vocabup-admin/src/routes/WordsManagement/WordsManagement.tsx:91-94 | the current word becomes the draft with id "new" and the word modal opens; nothing else in either store changes |
| WordsManagement.WordsScreen.HandleViewDetailWord | vocabup-admin/src/routes/WordsManagement/WordsManagement.tsx:96-99 | the chosen word becomes the current word and the word modal opens |
| WordsManagement.WordsScreen.HandleGetWordOfTheDay | vocabup-admin/src/routes/WordsManagement/WordsManagement.tsx:101-109 | the modal stays open with the word of the day, flagged `isToday`, as the current word when it loads, and is closed with the current word unchanged when it does not |
| WordsManagement.TitleFollowsOpening | vocabup-admin/src/components/Modal/ActionWordModal/ActionWordModal.tsx:526-531 | the word modal is titled as the word of the day for a stored word opened by "word of the day", as an update for a stored word opened from the table, and as an add for the "new" draft; apart from the flag the word of the day is the server's record |
| Members.Shown | vocabup-admin/src/routes/UsersManagement/UsersManagement.tsx:265 | a truthy address value shows as itself and a falsy one as "_", so no part is ever empty |
| Members.Parts | vocabup-admin/src/routes/UsersManagement/UsersManagement.tsx:263-265 | one part per address key, in the reverse of the keys' order, each the shown value of the mirrored key |
| Members.AddressTextAppend | vocabup-admin/src/routes/UsersManagement/UsersManagement.tsx:263-266 | a key added last to an address comes first in the address column, followed by ", " and the text of the other keys |
| Members.TypedAddressText | vocabup-admin/src/types/members.ts:6-12 | an address whose keys come in their declared order reads detail, ward, district, province, country |
| UsersManagement.ChangeFilterSpec | vocabup-admin/src/routes/UsersManagement/UsersManagement.tsx:66-69 | changing one filter sets that key to the value and keeps every other key and its value |
| UsersManagement.UsersLoadedSpec | vocabup-admin/src/routes/UsersManagement/UsersManagement.tsx:71-91 | loading page p asks for backend page p - 1 with the current filters; an accepted load shows the reply's users as page p with the requested size and the reported total, keeping the tab and filters; a refused load changes nothing |
| UsersManagement.TabChangedSpec | vocabup-admin/src/routes/UsersManagement/UsersManagement.tsx:96-110 | a tab switch flips the hidden flag; an accepted load shows page 1 with the size from before the switch, and a refused one leaves the reset paging and the old users; it asks for backend page 0, and for the tab that the flag then names whenever the other tab was chosen |
| UsersManagement.ReloadRepeatsLoad | vocabup-admin/src/routes/UsersManagement/UsersManagement.tsx:116-118 | after an accepted load of any page p other than 0, a reload sends that load's request again; after a refused load it sends the request it would have sent before |
| UsersManagement.WithoutIdsSpec | vocabup-admin/src/routes/UsersManagement/UsersManagement.tsx:120-159 | removing ids keeps exactly the users whose id is not listed, in their order, and removing them again changes nothing; a delete with status 400 or more keeps every user |
| UsersManagement.UsersScreen.constructor | vocabup-admin/src/routes/UsersManagement/UsersManagement.tsx:41-61 | no users, the available tab, page 0 of size 10, and empty filters |
| UsersManagement.UsersScreen.GetUsersInfo | vocabup-admin/src/routes/UsersManagement/UsersManagement.tsx:71-91 | the request and the new state are those of `LoadRequest` and `UsersLoaded`; the handler throws exactly when the load is refused |
| UsersManagement.UsersScreen.Mount | vocabup-admin/src/routes/UsersManagement/UsersManagement.tsx:161-164 | the first load asks for the page after the shown one, of the shown tab; it throws exactly when refused, leaving the screen unchanged |
| UsersManagement.UsersScreen.HandleFilterUsers | vocabup-admin/src/routes/UsersManagement/UsersManagement.tsx:93-94 | the filter reloads page 1 of the shown tab with the shown size; it throws exactly when refused, leaving the screen unchanged |
| UsersManagement.UsersScreen.HandleChangeTabs | vocabup-admin/src/routes/UsersManagement/UsersManagement.tsx:96-110 | the request and the new state are those of `TabRequest` and `TabChanged`; the handler throws exactly when the load is refused |
| UsersManagement.UsersScreen.HandleChangePage | vocabup-admin/src/routes/UsersManagement/UsersManagement.tsx:112-114 | the chosen page and size are loaded for the shown tab; it throws exactly when refused, leaving the screen unchanged |
| UsersManagement.UsersScreen.HandleReload | vocabup-admin/src/routes/UsersManagement/UsersManagement.tsx:116-118 | the shown page is loaded again, with page 0 read as page 1; it throws exactly when refused, leaving the screen unchanged |
| UsersManagement.UsersScreen.HandleHideUsers | vocabup-admin/src/routes/UsersManagement/UsersManagement.tsx:120-131 | whatever the status, the hidden users leave the list; below 400 the reply's message is shown as a success; at or above 400 reading the message throws, so no message is shown and the handler rejects |
| UsersManagement.UsersScreen.HandleEnableUsers | vocabup-admin/src/routes/UsersManagement/UsersManagement.tsx:133-143 | whatever the status, the enabled users leave the list; below 400 the reply's message is shown as a success; at or above 400 reading the message throws, so no message is shown and the handler rejects |
| UsersManagement.UsersScreen.HandleDeleteUsers | vocabup-admin/src/routes/UsersManagement/UsersManagement.tsx:145-159 | below status 400 the deleted users leave the list and the reply's message is shown; otherwise neither the list nor the store changes |
| UsersManagement.UsersScreen.HandleChangeFilterInfo | vocabup-admin/src/routes/UsersManagement/UsersManagement.tsx:66-69 | the filters become `ChangeFilter` of the old filters; nothing else changes |
| AdminsManagement.AdminsLoadedSpec | vocabup-admin/src/routes/AdminsManagement/AdminsManagement.tsx:26-54 | loading page p asks for backend page p - 1; an accepted load shows the reply's admins as page p with the requested size and total, and a refused one changes nothing; the mount asks for backend page 0 of ten and shows page 1 when accepted; after an accepted load of any page other than 0 a reload asks for it again, and after a refused load it asks for the same page as before |
| AdminsManagement.AdminsScreen.constructor | vocabup-admin/src/routes/AdminsManagement/AdminsManagement.tsx:16-21 | no admins, page 0 of size 10, total 0 |
| AdminsManagement.AdminsScreen.GetAdminsInfo | vocabup-admin/src/routes/AdminsManagement/AdminsManagement.tsx:26-41 | the request and the new state are those of `PageRequestFor` and `AdminsLoaded`; the handler throws exactly when the load is refused |
| AdminsManagement.AdminsScreen.Mount | vocabup-admin/src/routes/AdminsManagement/AdminsManagement.tsx:51-54 | the first load asks for the page after the shown one; it throws exactly when refused, leaving the screen unchanged |
| AdminsManagement.AdminsScreen.HandleChangePage | vocabup-admin/src/routes/AdminsManagement/AdminsManagement.tsx:43-45 | the chosen page and size are loaded; it throws exactly when refused, leaving the screen unchanged |
| AdminsManagement.AdminsScreen.HandleReload | vocabup-admin/src/routes/AdminsManagement/AdminsManagement.tsx:47-49 | the shown page is loaded again, with page 0 read as page 1; it throws exactly when refused, leaving the screen unchanged |
| PersonalInfomation.Omit | vocabup-admin/src/routes/PersonalInfomation/PersonalInfomation.tsx:102-111 | the omitted keys are gone, every other key stays with its value |
| PersonalInfomation.UpdateBodySpec | vocabup-admin/src/routes/PersonalInfomation/PersonalInfomation.tsx:89-112 | the update body has the uid, full name and address keys plus the form's keys other than the folded ones; the names and address parts come from the form unless the form itself carries such a key, which then wins; no folded key and no email is sent |
| PersonalInfomation.UnchangedFormRoundTrip | vocabup-admin/src/routes/PersonalInfomation/PersonalInfomation.tsx:89-145 | saving the form as it was filled from the account sends back the account's full name and address, its uid, gender and phone, and no email |
| PersonalInfomation.FullNameRoundTrip | vocabup-admin/src/routes/PersonalInfomation/PersonalInfomation.tsx:91-134 | the full name rebuilt from a form filled from the account is the account's full name |
| PersonalInfomation.AddressRoundTrip | vocabup-admin/src/routes/PersonalInfomation/PersonalInfomation.tsx:95-142 | the address rebuilt from a form filled from the account is the account's address |
| PersonalInfomation.SaveActionsSpec | vocabup-admin/src/routes/PersonalInfomation/PersonalInfomation.tsx:87-127 | a save always ends with the loader off; below status 400 the account is merged with the reply's info and its message is shown; otherwise nothing else in the store changes |
| PersonalInfomation.ProfilePage.constructor | vocabup-admin/src/routes/PersonalInfomation/PersonalInfomation.tsx:33 | the form starts read-only |
| PersonalInfomation.ProfilePage.ToggleEditable | vocabup-admin/src/routes/PersonalInfomation/PersonalInfomation.tsx:408-420 | the edit and cancel buttons flip the form's editability |
| PersonalInfomation.ProfilePage.HandleUpdateAccInfo | vocabup-admin/src/routes/PersonalInfomation/PersonalInfomation.tsx:85-129 | an invalid form sends nothing and changes nothing; a valid one sends `UpdateBody` of the account and the form, makes the form read-only, and applies the save's actions to the store |
| PersonalInfomation.ProfilePage.HandleUploadAvatar | vocabup-admin/src/routes/PersonalInfomation/PersonalInfomation.tsx:37-60 | below status 400 the account takes the reply's data and its message is shown; otherwise the store is unchanged |
| PersonalInfomation.ProfilePage.HandleDeleteAvatar | vocabup-admin/src/routes/PersonalInfomation/PersonalInfomation.tsx:62-83 | a request is sent exactly when the account has an avatar id; only an accepted delete clears the avatar and shows the reply's message |
| PersonalInfomation.AvatarDeleteClears | vocabup-admin/src/routes/PersonalInfomation/PersonalInfomation.tsx:68-81 | after an accepted avatar delete the avatar and its id are null, so a second delete sends nothing, and every other account key keeps its value |
| BlogsManagement.ImageUpdatedSpec | vocabup-admin/src/routes/BlogsManagement/BlogsManagement.tsx:72-80 | an image update puts first the listed image with that uid, the update's fields winning over the stored ones; the other images follow in their order, without that uid; a new image is put first and the others follow |
| BlogsManagement.PostsLoadedSpec | vocabup-admin/src/routes/BlogsManagement/BlogsManagement.tsx:114-148 | a failed load changes nothing; a successful one takes the reply's page, size and next flag, appends the reply's posts when the reply is for the page after the shown one, and replaces the list otherwise |
| BlogsManagement.NextPageRequestSpec | vocabup-admin/src/routes/BlogsManagement/BlogsManagement.tsx:171-197 | the scroll sentinel asks for the next posts exactly when it is visible, no load is running and the server said there is a next page, and it asks with the shown page and size |
| BlogsManagement.LoaderActionsSpec | vocabup-admin/src/routes/BlogsManagement/BlogsManagement.tsx:87-112 | a delete ends with the loader off and, below status 400, the reply's message shown; a create does the same when it succeeds; on a failed create the handler itself dispatches no loader-off, and the request layer's failure handling turns it off (see also lines 150-165 of the same file) |
| BlogsManagement.BlogsScreen.constructor | vocabup-admin/src/routes/BlogsManagement/BlogsManagement.tsx:29-42 | no images, no posts, an empty draft, page 0 of size 10 with a next page, no load running |
| BlogsManagement.BlogsScreen.HandleChangePostContent | vocabup-admin/src/routes/BlogsManagement/BlogsManagement.tsx:62-66 | one draft field takes the value; the images, posts and paging stay |
| BlogsManagement.BlogsScreen.HandleChangeImagesList | vocabup-admin/src/routes/BlogsManagement/BlogsManagement.tsx:68-70 | the new image goes first; nothing else changes |
| BlogsManagement.BlogsScreen.HandleChangeLastUploadedImage | vocabup-admin/src/routes/BlogsManagement/BlogsManagement.tsx:72-80 | the images become `ImageUpdated` of the old images; nothing else changes |
| BlogsManagement.BlogsScreen.HandleRemoveUploadedImage | vocabup-admin/src/routes/BlogsManagement/BlogsManagement.tsx:82-85 | the images with that uid are removed; nothing else changes |
| BlogsManagement.BlogsScreen.HandleCreateBlog | vocabup-admin/src/routes/BlogsManagement/BlogsManagement.tsx:87-112 | below status 400 the created post goes first, the images are cleared and the title and content emptied; otherwise the screen is unchanged; the store gets the create's actions |
| BlogsManagement.BlogsScreen.LoadPosts | vocabup-admin/src/routes/BlogsManagement/BlogsManagement.tsx:114-148 | the request uses the given page and size, falling back to the shown ones; the posts and paging become `PostsLoaded`, and the load flag ends off |
| BlogsManagement.BlogsScreen.HandleFilterPosts | vocabup-admin/src/routes/BlogsManagement/BlogsManagement.tsx:217-221 | the filter asks for page 0 with the shown size, applies the reply as a load, and leaves the store's loader off |
| BlogsManagement.BlogsScreen.HandleDeletePost | vocabup-admin/src/routes/BlogsManagement/BlogsManagement.tsx:150-165 | below status 400 the post with that id leaves the list; the store gets the delete's actions |
| PostsList.ReactedSpec | vocabup-admin/src/components/Post/PostsList.tsx:220-242 | a successful react flips the flag of the posts with that id and moves their count by one towards the new flag, leaving every other field and post alone; a second react restores the list; a failed react changes nothing |
| PostsList.CommentCountersSpec | vocabup-admin/src/components/Post/PostsList.tsx:87-103 | a new top-level comment is appended and a deleted one removed, the others kept in order; a reply moves its parent's reply count by one and changes nothing else (see also lines 137-151 of the same file) |
| PostsList.AddThenDeleteRestores | vocabup-admin/src/components/Post/PostsList.tsx:78-170 | adding a comment and deleting it again restores the comments and the open post's comment count |
| PostsList.ToggledSpec | vocabup-admin/src/components/Post/PostsList.tsx:70-73 | the comment button opens that post; opening another post shows its loaded comments; reopening the same post, or a failed load, leaves no comments shown (see also lines 172-183, 244-246 of the same file) |
| PostsList.AuthorActionsSpec | vocabup-admin/src/components/Post/PostsList.tsx:185-205 | an empty author id changes nothing; a successful load ends with the loader off and nothing else changed; a refused load stops at reading the reply's message, so the handler's loader stays on and it shows no message of its own |
| PostsList.PostsListView.constructor | vocabup-admin/src/components/Post/PostsList.tsx:46-49 | no open post and no comments |
| PostsList.PostsListView.HandleToggleComments | vocabup-admin/src/components/Post/PostsList.tsx:70-73 | the section becomes `Toggled` of the old section (see also lines 172-183, 244-246 of the same file) |
| PostsList.PostsListView.LoadAuthorInfo | vocabup-admin/src/components/Post/PostsList.tsx:185-205 | the handler throws exactly when a non-empty id's load is refused; the author is shown only after a successful load; the store gets the load's actions; the list's section is unchanged |
| PostsList.PostsListView.HandleReactPost | vocabup-admin/src/components/Post/PostsList.tsx:220-242 | the handler throws exactly when the react is refused; the blog screen's posts become `Reacted` and its other fields stay; the store is not touched by the handler |
| PostsList.PostsListView.HandleAddComment | vocabup-admin/src/components/Post/PostsList.tsx:124-170 | below status 400 the comments and the open post's count move and the created comment goes to the callback; otherwise nothing moves and no callback runs; the store gets the loader actions |
| PostsList.PostsListView.HandleDeleteComment | vocabup-admin/src/components/Post/PostsList.tsx:78-122 | below status 400 the comments move, the open post's count drops by the reply's deleted count and the deleted comment goes to the callback; otherwise nothing moves; the store gets the loader actions |
| PostsList.PostsListView.HandleSelectAction | vocabup-admin/src/components/Post/PostsList.tsx:207-218 | "delete" runs the blog screen's post delete; every other key, "edit" included, changes nothing |
| Comments.RepliesToggledSpec | vocabup-admin/src/components/Post/Comments.tsx:65-76 | the replies toggle drops the reply target and opens or closes that comment; opening another comment shows only its loaded replies; a closed thread shows none; toggling twice closes the thread (see also lines 120-122, 298-304 of the same file) |
| Comments.ReplyClickedSpec | vocabup-admin/src/components/Post/Comments.tsx:279-286 | the reply button targets the comment exactly when it was not the target; it closes the open replies but keeps them; a second click restores a thread that had no target |
| Comments.DeletedCallbackSpec | vocabup-admin/src/components/Post/Comments.tsx:78-129 | a deleted reply leaves the replies, the others kept in order; a deleted top-level comment closes and empties the thread; hiding the thread empties it as well |
| Comments.PostThenDeleteRestores | vocabup-admin/src/components/Post/Comments.tsx:83-104 | posting a reply and deleting it again gives back the shown replies |
| Comments.RefusedNestedDeleteHidesReply | vocabup-admin/src/components/Post/Comments.tsx:364-373 | the nested delete as written drops the reply and closes a one-reply thread even when the server refused the delete |
| Comments.NestedDeleteSpec | vocabup-admin/src/components/Post/Comments.tsx:364-373 | the corrected nested delete leaves the thread alone when refused; when accepted it removes exactly the replies with that id, in order, and closes a thread whose only reply went |
| Comments.ComposerTarget | vocabup-admin/src/components/Post/Comments.tsx:379-389 | the top-level composer answers the post itself; a nested composer answers the comment whose replies it lists unless a reply target with an id is set |
| Comments.CommentsView.constructor | vocabup-admin/src/components/Post/Comments.tsx:57-59 | no open comment, no target, no replies |
| Comments.CommentsView.HandleToggleReplies | vocabup-admin/src/components/Post/Comments.tsx:65-76 | the thread becomes `RepliesToggled` of the old thread (see also lines 120-122, 298-304 of the same file) |
| Comments.CommentsView.HandleReplyClick | vocabup-admin/src/components/Post/Comments.tsx:279-286 | the thread becomes `ReplyClicked` of the old thread |
| Comments.CommentsView.HandleToggleStatus | vocabup-admin/src/components/Post/Comments.tsx:124-129 | the thread becomes `Hidden` of the old thread |
| Comments.CommentsView.OnCommentDeleted | vocabup-admin/src/components/Post/Comments.tsx:83-92 | the thread becomes `DeletedCallback` of the old thread |
| Comments.CommentsView.OnCommentPosted | vocabup-admin/src/components/Post/Comments.tsx:101-104 | the thread becomes `PostedCallback` of the old thread |
| Comments.CommentsView.OnNestedDelete | vocabup-admin/src/components/Post/Comments.tsx:364-373 | the corrected nested delete, `NestedDelete` |
| EnterComment.InitDraft | vocabup-admin/src/components/Post/EnterComment.tsx:34-38 | a new draft is empty, for the given post, and replies to the given comment id, or to null when that id is falsy |
| EnterComment.PostedSpec | vocabup-admin/src/components/Post/EnterComment.tsx:49-61 | a post is made exactly when the send button is enabled; it carries the draft's text and post; afterwards the text is empty, so the button is disabled, and the post and parent stay; a blank draft is kept as it is (see also lines 116 of the same file) |
| EnterComment.PostedFromInitDraft | vocabup-admin/src/components/Post/EnterComment.tsx:34-56 | a composer for a comment posts that comment's id as parent, a composer for the post posts null, and both post to the post they were built for |
| EnterComment.EmojiAdded | vocabup-admin/src/components/Post/EnterComment.tsx:94-98 | an emoji is appended to the text and nothing else changes |
| EnterComment.Composer.constructor | vocabup-admin/src/components/Post/EnterComment.tsx:34-38 | the draft is `InitDraft` of the target and post |
| EnterComment.Composer.HandleChangeComment | vocabup-admin/src/components/Post/EnterComment.tsx:40-87 | the text is replaced; the post and parent stay |
| EnterComment.Composer.HandleEmojiClick | vocabup-admin/src/components/Post/EnterComment.tsx:94-98 | the draft becomes `EmojiAdded` of the old draft |
| EnterComment.Composer.HandlePostComment | vocabup-admin/src/components/Post/EnterComment.tsx:49-61 | the call and the new draft are those of `Posted` |
| FilterNotifications.LoadedSpec | vocabup-admin/src/components/Notification/FilterNotifications.tsx:61-87 | a failed load changes nothing; a successful one appends the reply when it is for the page after the shown one and replaces the list otherwise; the shown page is kept when a page was given and otherwise becomes the reply's page; the size stays and the next flag comes from the reply |
| FilterNotifications.ShowMoreSpec | vocabup-admin/src/components/Notification/FilterNotifications.tsx:61-83 | "show more" asks for the shown page with the shown size, so a reply numbered as that page replaces the list instead of extending it (see also lines 327 of the same file) |
| FilterNotifications.ReloadSpec | vocabup-admin/src/components/Notification/FilterNotifications.tsx:89-91 | a reload asks for page 0 with as many items as are shown, or the page size when none is; it keeps the shown page, and a reply for page 0 replaces the list |
| FilterNotifications.FilteredSpec | vocabup-admin/src/components/Notification/FilterNotifications.tsx:93-115 | a filter asks for page 0 with the shown size and the current filter; a successful reply replaces the list and sets the page, size and next flag; a failure changes nothing |
| FilterNotifications.LoadsKeepPageSize | vocabup-admin/src/components/Notification/FilterNotifications.tsx:60-91 | no run of loads (mount, show more, reload) changes the page size |
| FilterNotifications.FilterForgetsLoads | vocabup-admin/src/components/Notification/FilterNotifications.tsx:60-115 | after any run of loads a filter sends the same request as from the panel the loads started on, and a successful filter shows the same panel |
| FilterNotifications.PushedSpec | vocabup-admin/src/components/Notification/FilterNotifications.tsx:168-183 | a pushed notification goes first, keeping its id, title and message, with the signed-in admin's uid, name and avatar as sender where they are truthy and empty strings when no admin is signed in; the other notifications follow |
| FilterNotifications.DeletedSpec | vocabup-admin/src/components/Notification/FilterNotifications.tsx:149-166 | a successful delete removes exactly the notifications with that id and keeps the rest in order; pushing a notification and deleting it gives back the list; a failed delete changes nothing |
| FilterNotifications.ShouldSearchSpec | vocabup-admin/src/components/Notification/FilterNotifications.tsx:143-147 | the admin search runs exactly when the query has a non-blank character |
| FilterNotifications.NotificationsPanel.constructor | vocabup-admin/src/components/Notification/FilterNotifications.tsx:37-54 | no notifications, page 0 of size 3 with a next page, an empty filter, no load running, and the signed-in admin as the only admin choice |
| FilterNotifications.NotificationsPanel.GetNotifications | vocabup-admin/src/components/Notification/FilterNotifications.tsx:61-87 | the request uses the given page and size, falling back to the shown ones; the panel becomes `Loaded` and the load flag ends off |
| FilterNotifications.NotificationsPanel.GetExtraNotifications | vocabup-admin/src/components/Notification/FilterNotifications.tsx:195-198 | the mount load and "show more" are a load with no page and no size (see also lines 327 of the same file) |
| FilterNotifications.NotificationsPanel.HandleReloadNotifications | vocabup-admin/src/components/Notification/FilterNotifications.tsx:89-91 | the request is `ReloadRequest` and the reply is applied as a load of page 0 |
| FilterNotifications.NotificationsPanel.HandleFilterNotifications | vocabup-admin/src/components/Notification/FilterNotifications.tsx:93-115 | the request is `FilterRequest` and the panel becomes `Filtered` |
| FilterNotifications.NotificationsPanel.HandleChangeQueryString | vocabup-admin/src/components/Notification/FilterNotifications.tsx:117-119 | only the query changes |
| FilterNotifications.NotificationsPanel.HandleChangeDateFilter | vocabup-admin/src/components/Notification/FilterNotifications.tsx:121-133 | only the two dates change |
| FilterNotifications.NotificationsPanel.HandleChangeAdmin | vocabup-admin/src/components/Notification/FilterNotifications.tsx:304-306 | only the chosen admin changes |
| FilterNotifications.NotificationsPanel.HandleCancelQuery | vocabup-admin/src/components/Notification/FilterNotifications.tsx:234 | only the query is emptied |
| FilterNotifications.NotificationsPanel.HandleCancelDates | vocabup-admin/src/components/Notification/FilterNotifications.tsx:279-281 | only the two dates are unset |
| FilterNotifications.NotificationsPanel.HandleSearchAdmins | vocabup-admin/src/components/Notification/FilterNotifications.tsx:135-147 | a search is made exactly for a non-blank query; a successful one replaces the admin choices; the rest of the panel stays |
| FilterNotifications.NotificationsPanel.HandleDeleteNotification | vocabup-admin/src/components/Notification/FilterNotifications.tsx:149-166 | the list becomes `Deleted`; a successful delete shows the reply's message; the paging and filter stay and the load flag ends off |
| FilterNotifications.NotificationsPanel.OnPushAppNotification | vocabup-admin/src/components/Notification/FilterNotifications.tsx:168-183 | the list becomes `Pushed`; nothing else changes |
| StagesManagement.ConfirmRouting | vocabup-admin/src/routes/StagesManagement/StagesManagement.tsx:137-156 | a confirm adds exactly when the open stage's id contains "new"; an add sends the editor's body as it is, an update sends it with the open stage's id attached and nothing else changed |
| StagesManagement.FailureChangesNothing | vocabup-admin/src/routes/StagesManagement/StagesManagement.tsx:37-100 | a refused update or add changes neither the list nor the open stage and runs the failure callback; a refused delete changes nothing |
| StagesManagement.SuccessSpec | vocabup-admin/src/routes/StagesManagement/StagesManagement.tsx:37-100 | an accepted update replaces exactly the stages with the sent id by the returned stage, in place; an accepted add appends the first returned stage; both clear the open stage and hand the stage to the success callback; an accepted delete removes exactly the stages with that id, keeping the order |
| StagesManagement.NewStageDraft | vocabup-admin/src/routes/StagesManagement/StagesManagement.tsx:108-115 | the "add stage" draft's id contains "new" |
| StagesManagement.NewDraftAdds | vocabup-admin/src/routes/StagesManagement/StagesManagement.tsx:108-156 | confirming the "add stage" draft always adds, whatever the editor sends |
| StagesManagement.StagesScreen.constructor | vocabup-admin/src/routes/StagesManagement/StagesManagement.tsx:17-21 | no stages, no open stage, the editor closed |
| StagesManagement.StagesScreen.LoadAllStages | vocabup-admin/src/routes/StagesManagement/StagesManagement.tsx:26-35 | a successful load replaces the stages, a failed one keeps them; the full-screen loader is switched on and then off, so it ends off (see also lines 102-104 of the same file) |
| StagesManagement.StagesScreen.HandleUpdateStage | vocabup-admin/src/routes/StagesManagement/StagesManagement.tsx:37-62 | the screen becomes `StageUpdated` and the callback is the one it names; below status 400 the reply's message is shown as a success, otherwise the store is unchanged |
| StagesManagement.StagesScreen.HandleAddStage | vocabup-admin/src/routes/StagesManagement/StagesManagement.tsx:64-85 | the screen becomes `StageAdded` and the callback is the one it names; below status 400 the reply's message is shown as a success |
| StagesManagement.StagesScreen.HandleDeleteStage | vocabup-admin/src/routes/StagesManagement/StagesManagement.tsx:87-100 | the screen becomes `StageDeleted`; below status 400 the reply's message is shown as a success |
| StagesManagement.StagesScreen.HandleChangeCurrentStage | vocabup-admin/src/routes/StagesManagement/StagesManagement.tsx:24 | the stage becomes the open stage; the list and the editor's visibility stay (see also lines 125 of the same file) |
| StagesManagement.StagesScreen.HandleToggleModal | vocabup-admin/src/routes/StagesManagement/StagesManagement.tsx:23 | the editor's visibility flips; nothing else changes (see also lines 124 of the same file) |
| StagesManagement.StagesScreen.HandleAddNewStage | vocabup-admin/src/routes/StagesManagement/StagesManagement.tsx:108-115 | the open stage becomes the "add stage" draft and the editor's visibility flips; the list stays |
| StagesManagement.StagesScreen.HandleCancel | vocabup-admin/src/routes/StagesManagement/StagesManagement.tsx:133-136 | the editor's visibility flips and the open stage is cleared; the list stays |
| StagesManagement.StagesScreen.HandleConfirm | vocabup-admin/src/routes/StagesManagement/StagesManagement.tsx:137-156 | the request is `Confirm` of the open stage and the body, and the screen is not changed |
| TopicsManagement.ListenSpec | vocabup-admin/src/routes/TopicsManagement/TopicsManagement.tsx:108-134 | an add event appends its topics (none when it carries none); an update event merges its topic into exactly the same-id topics, in place; a delete event removes exactly the topics with its id, keeping the order; any other event changes nothing |
| TopicsManagement.MergeTopicSpec | vocabup-admin/src/routes/TopicsManagement/TopicsManagement.tsx:117-126 | the merged topic takes the event's id and name; a key the event lacks keeps the listed value; an event topic with every key replaces the listed one |
| TopicsManagement.EventsKeepListsInStep | vocabup-admin/src/routes/TopicsManagement/TopicsManagement.tsx:108-134 | when the screen's list and the `word` slice's list agree, applying the editor's event to the screen's list gives the slice's new list, after an add and after an update that returned a complete topic (see also components/Modal/ActionTopicModal/ActionTopicModal.tsx:120-155) |
| TopicsManagement.DeleteTopicsSpec | vocabup-admin/src/routes/TopicsManagement/TopicsManagement.tsx:82-103 | a refused bulk delete changes neither list; an accepted one removes exactly the listed ids from the screen's list and from the slice's list, keeping the order of each |
| TopicsManagement.TemplateOpensEditorForAdd | vocabup-admin/src/routes/TopicsManagement/TopicsManagement.tsx:68-77 | the new-topic template opens the editor, and submitting it with a non-blank name asks to add that one name (see also components/Modal/ActionTopicModal/ActionTopicModal.tsx:100-116) |
| TopicsManagement.TopicsScreen.constructor | vocabup-admin/src/routes/TopicsManagement/TopicsManagement.tsx:38 | no topics |
| TopicsManagement.TopicsScreen.HandleGetAllTopics | vocabup-admin/src/routes/TopicsManagement/TopicsManagement.tsx:48-58 | a successful fetch replaces the list; a failed one keeps it |
| TopicsManagement.TopicsScreen.HandleListenActionWord | vocabup-admin/src/routes/TopicsManagement/TopicsManagement.tsx:108-136 | the list becomes `Listen` of the old list and the event |
| TopicsManagement.TopicsScreen.HandleDeleteTopics | vocabup-admin/src/routes/TopicsManagement/TopicsManagement.tsx:82-103 | both lists become `DeleteTopics` of the old lists; the slice's current word and topic stay; below status 400 the reply's message is shown as a success |
| TopicsManagement.TopicsScreen.HandleOpenActionTopicModal | vocabup-admin/src/routes/TopicsManagement/TopicsManagement.tsx:64-66 | the record becomes the slice's current topic; nothing else in the slice changes |
| TopicsManagement.TopicsScreen.HandleAddNewTopic | vocabup-admin/src/routes/TopicsManagement/TopicsManagement.tsx:68-77 | the template becomes the slice's current topic, which opens the editor |
| ActionTopicModal.SubmitRouting | vocabup-admin/src/components/Modal/ActionTopicModal/ActionTopicModal.tsx:100-116 | nothing is sent exactly when no topic with an id is open or the name is blank; an update is sent exactly when the open id lacks "new", with that id and the name as typed; otherwise one name is added |
| ActionTopicModal.WithoutVersion | vocabup-admin/src/components/Modal/ActionTopicModal/ActionTopicModal.tsx:142-151 | every topic keeps its place and its fields, and loses only its version key |
| ActionTopicModal.FailedReplyChangesNothing | vocabup-admin/src/components/Modal/ActionTopicModal/ActionTopicModal.tsx:43 | a refused update, add, image upload or image delete changes nothing in the slice and tells the topics screen nothing (see also lines 74, 120 of the same file) |
| ActionTopicModal.UpdateRepliedSpec | vocabup-admin/src/components/Modal/ActionTopicModal/ActionTopicModal.tsx:120-137 | an accepted update shows the returned topic, replaces exactly the topics with the sent id by it, in place, leaves the current word alone, and announces it as an update |
| ActionTopicModal.AddRepliedSpec | vocabup-admin/src/components/Modal/ActionTopicModal/ActionTopicModal.tsx:120-153 | an accepted add shows the reply's topic, keeps the listed topics as a prefix and appends each returned topic, in order, without its version key |
| ActionTopicModal.ImageRepliedSpec | vocabup-admin/src/components/Modal/ActionTopicModal/ActionTopicModal.tsx:43-88 | an accepted image change gives the open topic the new image and image id, both null after a delete, keeps its other fields, and puts that copy in place of the same-id topics |
| ActionTopicModal.CancelCloses | vocabup-admin/src/components/Modal/ActionTopicModal/ActionTopicModal.tsx:26-28 | cancelling closes the editor and leaves the topics and the current word; a topic opens the editor exactly when its id is not empty |
| ActionTopicModal.TopicModal.constructor | vocabup-admin/src/components/Modal/ActionTopicModal/ActionTopicModal.tsx:21 | the confirm spinner is off |
| ActionTopicModal.TopicModal.HandleCancel | vocabup-admin/src/components/Modal/ActionTopicModal/ActionTopicModal.tsx:26-28 | the slice becomes `Cancel` of the old slice |
| ActionTopicModal.TopicModal.BeginSubmit | vocabup-admin/src/components/Modal/ActionTopicModal/ActionTopicModal.tsx:100-116 | the request is `SubmitRequest` of the open topic and the name, and the spinner is on, also when nothing is sent |
| ActionTopicModal.TopicModal.FinishUpdate | vocabup-admin/src/components/Modal/ActionTopicModal/ActionTopicModal.tsx:118-156 | the slice and the event become `UpdateReplied`; below status 400 the reply's message is shown; the spinner ends off |
| ActionTopicModal.TopicModal.FinishAdd | vocabup-admin/src/components/Modal/ActionTopicModal/ActionTopicModal.tsx:118-156 | the slice and the event become `AddReplied`; below status 400 the reply's message is shown; the spinner ends off |
| ActionTopicModal.TopicModal.HandleImageReply | vocabup-admin/src/components/Modal/ActionTopicModal/ActionTopicModal.tsx:30-98 | the slice and the event become `ImageReplied` of the open topic; below status 400 the reply's message is shown |
| LessonsManagement.CallbackFor | vocabup-admin/src/routes/LessonsManagement/LessonsManagement.tsx:209-233 | the success callback runs exactly when the status is below 400 |
| LessonsManagement.FailureChangesNothing | vocabup-admin/src/routes/LessonsManagement/LessonsManagement.tsx:41-386 | a refused request changes nothing, whichever handler made it: the quiz load, the quiz add, update and delete, the lesson delete, add and update; the failure callback is the one that runs |
| LessonsManagement.AddQuizzSpec | vocabup-admin/src/routes/LessonsManagement/LessonsManagement.tsx:196-234 | an accepted quiz add appends the new quiz to the open lesson's quizzes, starting from none when it had none, keeps the open lesson's id and the editor's visibility, and replaces exactly the table lessons with the returned lesson's id by it, in place |
| LessonsManagement.UpdateQuizzSpec | vocabup-admin/src/routes/LessonsManagement/LessonsManagement.tsx:236-267 | an accepted quiz update replaces exactly the open lesson's quizzes with the returned quiz's id by it, in place, and leaves the table alone |
| LessonsManagement.UpdateQuizzOne | vocabup-admin/src/routes/LessonsManagement/LessonsManagement.tsx:247-255 | when one quiz of the open lesson has the returned quiz's id, the update replaces just that quiz |
| LessonsManagement.DeleteQuizzSpec | vocabup-admin/src/routes/LessonsManagement/LessonsManagement.tsx:269-313 | an accepted quiz delete leaves the open lesson exactly the quizzes without that id; in the table, the open lesson loses that id from its quiz ids and keeps the others, and every other lesson stays |
| LessonsManagement.DeleteLessonSpec | vocabup-admin/src/routes/LessonsManagement/LessonsManagement.tsx:315-330 | an accepted lesson delete removes exactly the lessons with that id, keeping the order |
| LessonsManagement.ReplaceLessonsSpec | vocabup-admin/src/routes/LessonsManagement/LessonsManagement.tsx:332-386 | an accepted lesson add or update makes the table the stage's lessons from the reply, resets the open lesson to one without id or quizzes, and flips the editor's visibility |
| LessonsManagement.LessonsScreen.constructor | vocabup-admin/src/routes/LessonsManagement/LessonsManagement.tsx:32-39 | the table holds the stage's lessons, no lesson is open and the editor is closed |
| LessonsManagement.LessonsScreen.LoadLessonQuizzes | vocabup-admin/src/routes/LessonsManagement/LessonsManagement.tsx:41-57 | the screen becomes `QuizzesLoaded`, which opens the lesson with the loaded quizzes and shows the editor only on success; the full-screen loader ends off |
| LessonsManagement.LessonsScreen.HandleToggleLessonModal | vocabup-admin/src/routes/LessonsManagement/LessonsManagement.tsx:192-194 | the editor's visibility flips; nothing else changes |
| LessonsManagement.LessonsScreen.HandleAddNewLesson | vocabup-admin/src/routes/LessonsManagement/LessonsManagement.tsx:408-414 | the editor's visibility flips and the open lesson becomes a fresh one with a "new-" id and no quizzes; the table stays |
| LessonsManagement.LessonsScreen.HandleAddQuizzToLesson | vocabup-admin/src/routes/LessonsManagement/LessonsManagement.tsx:196-234 | the screen becomes `AddQuizz` and the callback is the one the status selects; below status 400 the reply's message is shown as a success |
| LessonsManagement.LessonsScreen.HandleUpdateQuizzToLesson | vocabup-admin/src/routes/LessonsManagement/LessonsManagement.tsx:236-267 | the screen becomes `UpdateQuizz` and the callback is the one the status selects; below status 400 the reply's message is shown |
| LessonsManagement.LessonsScreen.HandleDeleteQuizz | vocabup-admin/src/routes/LessonsManagement/LessonsManagement.tsx:269-313 | the screen becomes `DeleteQuizz` and the callback is the one the status selects; below status 400 the reply's message is shown |
| LessonsManagement.LessonsScreen.HandleDeleteLesson | vocabup-admin/src/routes/LessonsManagement/LessonsManagement.tsx:315-330 | the screen becomes `DeleteLesson`; below status 400 the reply's message is shown |
| LessonsManagement.LessonsScreen.HandleLessonSaved | vocabup-admin/src/routes/LessonsManagement/LessonsManagement.tsx:332-386 | the screen becomes `ReplaceLessons` and the callback is the one the status selects; below status 400 the reply's message is shown |
| ActionLessonModal.AsChoices | vocabup-admin/src/components/Modal/ActionLessonModal/ActionLessonModal.tsx:310-313 | one option per lesson, in order, valued by the lesson's id and labelled by its title |
| ActionLessonModal.ChoicesExcludeSelfAndCycle | vocabup-admin/src/components/Modal/ActionLessonModal/ActionLessonModal.tsx:304-313 | every stage lesson that is not the edited lesson and does not name it as its previous lesson is offered, and every offered option is such a lesson, never the edited lesson itself |
| ActionLessonModal.ChoicesKeepStageOrder | vocabup-admin/src/components/Modal/ActionLessonModal/ActionLessonModal.tsx:304-313 | the offered options are those of a subsequence of the stage's lessons, so they keep the stage's order |
| Types.ChoiceValues | vocabup-admin/src/components/Modal/ActionLessonModal/ActionLessonModal.tsx:120 | the values of labelled choices, one per choice, in order; the lesson's new words and the quiz's options and pairs are sent this way (see also components/Modal/ActionLessonModal/ActionQuizzModal.tsx lines 217-219, 233-235) |
| ActionLessonModal.SubmitRouting | vocabup-admin/src/components/Modal/ActionLessonModal/ActionLessonModal.tsx:113-145 | with "New Words" read as empty when untouched, every form is sent: a lesson id with "new" as an add without an id, any other as an update carrying that id; both send the form's title, previous lesson, description and the chosen words' ids in order; whenever the code as written sends a request it is this one, and it sends one exactly when the field holds a list |
| ActionLessonModal.UntouchedWordsBlockSubmit | vocabup-admin/src/components/Modal/ActionLessonModal/ActionLessonModal.tsx:113-145 | as written, a lesson loaded without a word list and submitted without touching "New Words" is never sent, whatever else was typed |
| ActionLessonModal.LoadThenSubmitKeepsLesson | vocabup-admin/src/components/Modal/ActionLessonModal/ActionLessonModal.tsx:113-166 | loading a lesson into the form and submitting it unedited sends the lesson's own title, previous lesson and description and its new words' ids in order, none for a lesson without a word list |
| ActionQuizzModal.FreshId | vocabup-admin/src/components/Modal/ActionLessonModal/ActionQuizzModal.tsx:156 | a client-made item id contains "new" |
| ActionQuizzModal.AddAppendsOne | vocabup-admin/src/components/Modal/ActionLessonModal/ActionQuizzModal.tsx:150-178 | confirming an item keeps the items before it and appends one item, carrying the edited item's id or a fresh "new" id, whose text is the form's chosen word and whose position is the form's; the edit marker and the saved item are cleared, and the item fields reset to no word and the position -1 |
| ActionQuizzModal.ChangeRemovesAndRecords | vocabup-admin/src/components/Modal/ActionLessonModal/ActionQuizzModal.tsx:180-197 | editing an item loads it into the form, saves it and marks its id; it leaves the list, and an item saved by an earlier unfinished edit goes back at the end |
| ActionQuizzModal.SwitchingEditsLosesNothing | vocabup-admin/src/components/Modal/ActionLessonModal/ActionQuizzModal.tsx:180-197 | with distinct ids, editing one item and then another loses no item: each item of the list is still listed or is the one now being edited |
| ActionQuizzModal.EditThenConfirm | vocabup-admin/src/components/Modal/ActionLessonModal/ActionQuizzModal.tsx:150-197 | editing an item and confirming it unchanged moves it to the end with its id (a fresh one when it had none) and its text, verb form, variation, part of speech and position; the other items keep their order |
| ActionQuizzModal.ItemBodies | vocabup-admin/src/components/Modal/ActionLessonModal/ActionQuizzModal.tsx:225-228 | one request item per ordering item, in order |
| ActionQuizzModal.TransferBodySpec | vocabup-admin/src/components/Modal/ActionLessonModal/ActionQuizzModal.tsx:199-244 | the body carries the quiz type and detail, title and explanation, and an id exactly when the quiz has one; a single-choice quiz sends its option values and answer index, a matching quiz its pair values and answer index, an ordering quiz its items in order with a "new" id dropped and the text sent as its word id; any other type sends no variant fields |
| ActionQuizzModal.FreshItemSentWithoutId | vocabup-admin/src/components/Modal/ActionLessonModal/ActionQuizzModal.tsx:156 | an item added outside an edit is sent without an id (see also lines 226 of the same file) |
| ActionQuizzModal.QuizEditor.constructor | vocabup-admin/src/components/Modal/ActionLessonModal/ActionQuizzModal.tsx:129-138 | the items are the quiz's own, with no item being edited, none saved, no word chosen and the position field at -1 |
| ActionQuizzModal.QuizEditor.HandleAddOrderItem | vocabup-admin/src/components/Modal/ActionLessonModal/ActionQuizzModal.tsx:150-178 | the editor becomes `AddOrderItem` of the old editor, whose properties `AddAppendsOne` states |
| ActionQuizzModal.QuizEditor.HandleChangeOrderItem | vocabup-admin/src/components/Modal/ActionLessonModal/ActionQuizzModal.tsx:180-197 | the editor becomes `ChangeOrderItem` of the old editor |
| ActionQuizzModal.QuizEditor.HandleDeleteOrderItem | vocabup-admin/src/components/Modal/ActionLessonModal/OrderingItemsTable.tsx:21-23 | the items become `DeleteOrderItem` of the old items; nothing else changes |
| OrderingItemsTable.DeleteOrderItem | vocabup-admin/src/components/Modal/ActionLessonModal/OrderingItemsTable.tsx:21-23 | an item is kept exactly when it was listed and its id differs from the deleted id |
| OrderingItemsTable.DeleteOrderItemSpec | vocabup-admin/src/components/Modal/ActionLessonModal/OrderingItemsTable.tsx:21-23 | no kept item has the deleted id, the kept items keep their order, and an id that is not listed changes nothing |
| OrderingItemsTable.DeleteOneOfDistinct | vocabup-admin/src/components/Modal/ActionLessonModal/OrderingItemsTable.tsx:21-23 | with distinct ids, deleting a listed item's id removes just that item |
| OrderingItemsTable.PositionCell | vocabup-admin/src/components/Modal/ActionLessonModal/OrderingItemsTable.tsx:52-53 | the position cell is empty exactly when there is no position or it is -1 |
| ActionWordModal.AddTermSpec | vocabup-admin/src/components/Modal/ActionWordModal/ActionWordModal.tsx:126-142 | a synonym or antonym is appended, and its box cleared, exactly when it is non-empty and not yet listed; otherwise nothing changes; a list without repeats stays without repeats |
| ActionWordModal.BlankTermAccepted | vocabup-admin/src/components/Modal/ActionWordModal/ActionWordModal.tsx:126-131 | every non-empty, unlisted term made only of white space is added by the handler and clears the box; only the trimming button is disabled for it |
| ActionWordModal.DeleteTermSpec | vocabup-admin/src/components/Modal/ActionWordModal/ActionWordModal.tsx:133-146 | a delete keeps exactly the other terms, in order; adding a new term and deleting it gives back the list |
| ActionWordModal.LowerTypes | vocabup-admin/src/components/Modal/ActionWordModal/ActionWordModal.tsx:149 | one lower-cased type per verb, in order |
| ActionWordModal.AddVerbSpec | vocabup-admin/src/components/Modal/ActionWordModal/ActionWordModal.tsx:148-154 | a verb is appended and both boxes cleared when no listed verb has its type ignoring case, and nothing changes when one has; verb types stay distinct ignoring case |
| ActionWordModal.DeleteVerbOfTypeSpec | vocabup-admin/src/components/Modal/ActionWordModal/ActionWordModal.tsx:156-159 | deleting by type keeps exactly the verbs of other types, in order |
| ActionWordModal.LabelGivesTypeBack | vocabup-admin/src/components/Modal/ActionWordModal/ActionWordModal.tsx:156-159 | when a verb's type holds no colon, the type read back from its list entry is its own type, so the delete as written removes the verbs of that type (see also lines 865 of the same file) |
| ActionWordModal.ColonInTypeBlocksDelete | vocabup-admin/src/components/Modal/ActionWordModal/ActionWordModal.tsx:156-159 | a verb of type "a:b" survives the delete as written, while deleting by its type removes it (see also lines 865 of the same file) |
| ActionWordModal.RemoveTempSpec | vocabup-admin/src/components/Modal/ActionWordModal/ActionWordModal.tsx:179-187 | taking an entry out keeps an undefined table undefined and keeps exactly the entries with another id |
| ActionWordModal.RegainSpec | vocabup-admin/src/components/Modal/ActionWordModal/ActionWordModal.tsx:308-330 | regaining appends the word's first original with the id, starting an undefined table with it, and changes nothing when the word has no such original |
| ActionWordModal.RegainUndoesRemove | vocabup-admin/src/components/Modal/ActionWordModal/ActionWordModal.tsx:179-187 | taking out the word's own entry and regaining it leaves the table with the same entries (see also lines 308-330 of the same file) |
| ActionWordModal.DeletePronSpec | vocabup-admin/src/components/Modal/ActionWordModal/ActionWordModal.tsx:161-177 | the table changes only when a word is open, the id is not empty and the server answers 200, and then keeps exactly the pronunciations with another id |
| ActionWordModal.ExamplesBodyOf | vocabup-admin/src/components/Modal/ActionWordModal/ActionWordModal.tsx:262-269 | one example body per example |
| ActionWordModal.NewIdsStripped | vocabup-admin/src/components/Modal/ActionWordModal/ActionWordModal.tsx:189-199 | a pronunciation, definition or example is sent without an id exactly when its id holds "new" (a pronunciation then also without its url and url id); other records keep their ids and every other field passes through (see also lines 226-233, 258-269 of the same file) |
| ActionWordModal.GenerateId | vocabup-admin/src/components/Modal/ActionWordModal/ActionWordModal.tsx:27 | a generated id starts with "new-" |
| ActionWordModal.DeleteDefinitionSpec | vocabup-admin/src/components/Modal/ActionWordModal/ActionWordModal.tsx:286-306 | the table changes only when the server answers 200, and then keeps exactly the definitions with another id |
| ActionWordModal.SavedDraftsAreNew | vocabup-admin/src/components/Modal/ActionWordModal/ActionWordModal.tsx:189-256 | a save answered with 200 shows the saved word's pronunciations or definitions and leaves a draft under a generated id, which the next save sends without an id; the pronunciation draft keeps its chosen file, the definition draft has no examples; any other answer changes nothing |
| ActionWordModal.WordEditor.constructor | vocabup-admin/src/components/Modal/ActionWordModal/ActionWordModal.tsx:73-85 | empty lists and boxes, and empty pronunciation and definition tables |
| ActionWordModal.WordEditor.HandleAddSynonym | vocabup-admin/src/components/Modal/ActionWordModal/ActionWordModal.tsx:126-131 | the synonyms become `AddTerm` of the old ones; nothing else changes |
| ActionWordModal.WordEditor.HandleDeleteSynonym | vocabup-admin/src/components/Modal/ActionWordModal/ActionWordModal.tsx:133-135 | the synonym list loses that term; nothing else changes |
| ActionWordModal.WordEditor.HandleAddAntonym | vocabup-admin/src/components/Modal/ActionWordModal/ActionWordModal.tsx:137-142 | the antonyms become `AddTerm` of the old ones; nothing else changes |
| ActionWordModal.WordEditor.HandleDeleteAntonym | vocabup-admin/src/components/Modal/ActionWordModal/ActionWordModal.tsx:144-146 | the antonym list loses that term; nothing else changes |
| ActionWordModal.WordEditor.HandleAddVerb | vocabup-admin/src/components/Modal/ActionWordModal/ActionWordModal.tsx:148-154 | the verbs become `AddVerb` of the old ones; nothing else changes |
| ActionWordModal.WordEditor.HandleDeleteVerb | vocabup-admin/src/components/Modal/ActionWordModal/ActionWordModal.tsx:156-159 | the verbs of the entry's type are removed, by the corrected delete; nothing else changes |
| ActionWordModal.WordEditor.HandleRemovePronTemp | vocabup-admin/src/components/Modal/ActionWordModal/ActionWordModal.tsx:179-181 | the pronunciation table loses the entries with that id; the definitions stay |
| ActionWordModal.WordEditor.HandleRemoveDefTemp | vocabup-admin/src/components/Modal/ActionWordModal/ActionWordModal.tsx:183-187 | the definition table loses the entries with that id; the pronunciations stay |
| ActionWordModal.WordEditor.HandleRegainPron | vocabup-admin/src/components/Modal/ActionWordModal/ActionWordModal.tsx:308-318 | the pronunciation table becomes `Regain` from the open word's pronunciations; the definitions stay |
| ActionWordModal.WordEditor.HandleRegainDef | vocabup-admin/src/components/Modal/ActionWordModal/ActionWordModal.tsx:320-330 | the definition table becomes `Regain` from the open word's definitions; the pronunciations stay |
| ActionWordModal.WordEditor.HandleDeletePron | vocabup-admin/src/components/Modal/ActionWordModal/ActionWordModal.tsx:161-177 | the pronunciations become `DeletePron`; when a word is open, the id is not empty and the server answers 200, the saved word is announced and the reply's message shown, otherwise neither |
| ActionWordModal.WordEditor.HandleDeleteDefinition | vocabup-admin/src/components/Modal/ActionWordModal/ActionWordModal.tsx:286-306 | the definitions become `DeleteDefinition`; on 200 the saved word is announced and the reply's message shown, otherwise neither |
| Definitions.UpdateDefSpec | vocabup-admin/src/components/Vocabulary/Definitions.tsx:73-82 | editing a row loads its fields into the draft, a missing field keeping the draft's value; the row leaves the table and every other row stays; a draft that was a stored definition goes back to the table from the open word, and a client-made draft is simply replaced |
| Definitions.CanSaveDefinitionSpec | vocabup-admin/src/components/Vocabulary/Definitions.tsx:311-316 | the save button ignores the examples, is off while saving and off for an empty or null text; a text of one space is accepted because nothing is trimmed |
| Definitions.DeleteExampleSpec | vocabup-admin/src/components/Vocabulary/Definitions.tsx:91-96 | deleting an example keeps exactly the other examples, in order, and the rest of the definition |
| Definitions.RegainExampleSpec | vocabup-admin/src/components/Vocabulary/Definitions.tsx:98-108 | regaining throws exactly when a word is open that lacks the selected definition; without a word nothing changes; otherwise it appends an example with that id or changes nothing |
| Definitions.DeleteThenRegainExample | vocabup-admin/src/components/Vocabulary/Definitions.tsx:91-108 | deleting an example that the open word also holds and regaining it gives back the same examples |
| Definitions.AddExampleSpec | vocabup-admin/src/components/Vocabulary/Definitions.tsx:110-120 | adding appends the new example to the selected definition and resets the box to empty text and translation under a generated "new-" id |
| Definitions.DefinitionsPanel.constructor | vocabup-admin/src/components/Vocabulary/Definitions.tsx:62-64 | the draft, table and selected definition as given, and the examples dialog closed |
| Definitions.DefinitionsPanel.HandleUpdateDef | vocabup-admin/src/components/Vocabulary/Definitions.tsx:73-82 | the draft and table become `UpdateDef`; the rest stays |
| Definitions.DefinitionsPanel.HandleOpenExamplesModal | vocabup-admin/src/components/Vocabulary/Definitions.tsx:84-87 | the dialog opens on that definition; the rest stays |
| Definitions.DefinitionsPanel.HandleCancelExamplesModal | vocabup-admin/src/components/Vocabulary/Definitions.tsx:89 | the dialog closes; the rest stays |
| Definitions.DefinitionsPanel.HandleDeleteExample | vocabup-admin/src/components/Vocabulary/Definitions.tsx:91-96 | the selected definition becomes `DeleteExample`; the rest stays |
| Definitions.DefinitionsPanel.HandleRegainExample | vocabup-admin/src/components/Vocabulary/Definitions.tsx:98-108 | it reports a throw exactly when `RegainExample` throws, and then changes nothing; otherwise the selected definition becomes its result |
| Definitions.DefinitionsPanel.HandleUpdateExample | vocabup-admin/src/components/Vocabulary/Definitions.tsx:110-120 | the selected definition and the box become `AddExample` with a generated id; the rest stays |
| Pronunciations.UpdatePronSpec | vocabup-admin/src/components/Vocabulary/Pronunciations.tsx:67-76 | editing a row loads it into the draft, keeping the draft's url id when the row has none and the chosen file always; the row leaves the table and every other row stays; a stored draft goes back to the table from the open word, a client-made one is replaced |
| Pronunciations.BeforeUploadSpec | vocabup-admin/src/components/Vocabulary/Pronunciations.tsx:78-96 | an MP3 file stops the upload and becomes the draft's audio with the object URL as its url, the rest of the draft kept; any other file leaves the draft and shows an error message |
| Pronunciations.CanSavePronunciationSpec | vocabup-admin/src/components/Vocabulary/Pronunciations.tsx:293-302 | the save button ignores the url, url id and file, is off while saving and off when the pronunciation text is blank after trimming |
| Pronunciations.PronunciationsPanel.constructor | vocabup-admin/src/components/Vocabulary/Pronunciations.tsx:43-54 | the draft and table as given |
| Pronunciations.PronunciationsPanel.HandleUpdatePron | vocabup-admin/src/components/Vocabulary/Pronunciations.tsx:67-76 | the draft and table become `UpdatePron` |
| Pronunciations.PronunciationsPanel.BeforeUploadAudioFile | vocabup-admin/src/components/Vocabulary/Pronunciations.tsx:78-96 | the draft and verdict become `BeforeUpload`'s; its message, if any, goes to the store; the table stays |
| ActionExamplesModal.ChangeExampleSpec | vocabup-admin/src/components/Modal/ActionExamplesModal/ActionExamplesModal.tsx:37-43 | editing a row can throw only when the box holds a stored example the open word lacks; a client-made box never throws; otherwise the row leaves the selected definition, the other examples stay, and the box takes the row's fields |
| ActionExamplesModal.ClientMadeTests | vocabup-admin/src/components/Modal/ActionExamplesModal/ActionExamplesModal.tsx:38 | a generated id passes both the "new-" and the "new" test, while an id such as "renew" passes only the looser one |
| ActionExamplesModal.CanAddExampleSpec | vocabup-admin/src/components/Modal/ActionExamplesModal/ActionExamplesModal.tsx:176-182 | the add button is off for a blank text or an empty, null or blank translation; a missing translation key does not turn it off |
| ActionExamplesModal.CanAddWithoutTranslation | vocabup-admin/src/components/Modal/ActionExamplesModal/ActionExamplesModal.tsx:176-182 | a box with a non-blank id and text and no translation key can be added |
| ActionExamplesModal.OnOk | vocabup-admin/src/components/Modal/ActionExamplesModal/ActionExamplesModal.tsx:134-137 | the confirm runs two steps |
| ActionExamplesModal.OnOkSavesThenCloses | vocabup-admin/src/components/Modal/ActionExamplesModal/ActionExamplesModal.tsx:134-137 | the confirm first saves the selected definition's examples, one body per example, and then closes the dialog |
| ActionExamplesModal.ExamplesEditor.constructor | vocabup-admin/src/components/Modal/ActionExamplesModal/ActionExamplesModal.tsx:25-36 | the selected definition and the box as given |
| ActionExamplesModal.ExamplesEditor.HandleChangeExample | vocabup-admin/src/components/Modal/ActionExamplesModal/ActionExamplesModal.tsx:37-43 | it reports a throw exactly when `ChangeExample` throws, and then changes nothing; otherwise the definition and box become its result |
| ActionExamplesModal.ExamplesEditor.HandleChangeNewExample | vocabup-admin/src/components/Modal/ActionExamplesModal/ActionExamplesModal.tsx:45-50 | the given text and translation overwrite the box's, a missing one keeping the old value; the selected definition stays |

## Left out

- REST calls: the services, the axios instance and the thunks are not part of this model. Each call's outcome enters a handler as parameters: the status code and the payload fields it reads. The message the reply carries enters as a JSON value.
- Timers: the debounce wrappers in `DebounceSelect`, `FilterNotifications` and `FilterPosts` are left out. Only the order in which lookups are sent and settle is modelled.
- Clocks and randomness: `Date.now()` and `Math.random()` enter as parameters (`now`, `random`), and the model only promises what every such id has in common (its "new" or "new-" prefix).
- The event bus: an emitted event is returned to the caller, or the listener is called directly; subscription and unsubscription are not modelled.
- Rendering: JSX, Antd `Form`/`Modal`/`Table`, form validation (`validateFields`) and the `getFieldsValue`/`setFieldsValue` machinery are left out. Form contents are plain records, and a submit is modelled after validation has passed.
- Files: `FormData`, object URLs and the upload components are left out. The MP3 check works on a file's MIME type, and the object URL is a parameter.
- Unicode: `trim` removes ASCII white space and `toLowerCase` lowers ASCII letters only. The source's full Unicode behaviour is not modelled.
- Object key order: `Object.keys` order is taken as insertion order, and the query builder and the flattener work on sequences of key-value pairs.
- Dates: dayjs/moment formatting of dates is not modelled. Dates are opaque values.
- JavaScript `undefined` versus a missing key: a record field that the source may omit is `Absent`, and `undefined` stored under a present key is also `Absent`.
- Message kinds: the values of the message-type constants are not part of this model. Only the success and error kinds are distinguished.
- Loading flags: the per-screen table spinners (`wordsLoading`, `usersLoading`, `topicsLoading` and the like) are left out where no logic depends on them. The store's full-screen loader is modelled.
- ActionLessonModal: the `loadingStatus` spinner that the submit callbacks switch is not modelled. The submit's routing and body are.
- ActionWordModal: the save, image upload and image delete, submit, close, reset-example and initialisation handlers are left out. So are the success messages, `setCurrentWord` dispatches and update events of the saves. The pronunciation and definition saves are modelled only as the pure `PronSaved` and `DefinitionSaved`. The `Word` record lacks the image, topics and base-word fields, which these handlers alone use.
- FilterPosts and the blog filter form's `handleChangeFilterInfo`, and the filter forms of the topics, users and admins screens, are left out (display-only or concurrent searches). A filter enters as the request it produces.
- Charts, statistics, the dashboard, routing, the app shell, persistence (redux-persist, `sessionStorage`) and the display-only components are not part of this model.
- Integer width: counts, pages and statuses are unbounded integers. The source's double-precision numbers and their rounding above 2^53 are not modelled.
- EnterComment: the draft is built once, when the composer mounts. A later change of the target comment does not reset it, and the model keeps that behaviour (`InitDraft` runs only in the constructor).
- DebounceSelect: a lookup that rejects has no handler in the code, so `fetching` stays on. The model follows the code.
- BlogsManagement: on a failed blog create the handler itself dispatches no loader-off; the request layer's failure handling turns the loader off (`Store.StateAfterError`). `LoaderActionsSpec` states the handler's own actions only.
- UsersManagement: the tab change's reset of the page is overwritten by the load it starts (`TabChangedSpec`). The user and admin list loads read the reply's list without checking the status: a refused request resolves with the error object, the read throws, and the list, page and total stay as they were (`threw`). On a connection failure the request layer resolves with an empty placeholder instead, which would set the list to `undefined`; that reply is not modelled, since a handler's status is always a number here.
- PostsList and Comments: the "edit" entries of the post and comment menus are empty placeholders in the source. `PostsListView.HandleSelectAction` makes it change nothing. The comment menu is not modelled as a handler: its "delete" entry runs the comment delete, whose callback is `CommentsView.OnCommentDeleted`.
- FilterNotifications: "show more" asks for the page that is shown, not the next one. Whether it then appends depends on the server's page numbering, which is not part of this model, so `ShowMoreSpec` states the request and both outcomes.

## Findings

| source | as written | input that shows it | evidently intended | confidence | as-written member | corrected member |
|---|---|---|---|---|---|---|
| vocabup-admin/src/components/Modal/ActionWordModal/ActionWordModal.tsx:156-158 | the verb delete reads the type back from the list entry `${type}: ${text}` up to its first colon | a verb of type "a:b": the type read back is "a", so the verb is never deleted, and a verb of type "a" would be deleted instead | delete the verbs of the entry's own type | medium, not executed | `ActionWordModal.ColonInTypeBlocksDelete` (with `DeleteVerbByLabel`) | `ActionWordModal.DeleteVerbOfTypeSpec` (with `DeleteVerbOfType`, used by `WordEditor.HandleDeleteVerb`) |
| vocabup-admin/src/routes/WordsManagement/WordsManagement.tsx:150-176 | the update listener, registered once on the first render, looks the word up in the list captured then, which is empty | a word `w` already shown is updated: the listener appends it again, and the list becomes `[w, w]` | replace the shown word with the same id, and append only a word that is not shown | high, not executed | `WordsManagement.StaleSnapshotDuplicates` (with `ListenAsWritten`) | `WordsManagement.UpsertSpec` (with `Upsert`, used by `WordsScreen.HandleListenVocabUpdate`) |
| vocabup-admin/src/routes/WordsManagement/WordsManagement.tsx:72-89 | an empty page `p` records page `p - 1`, and reload asks for that page as it is | the first page loads empty: page 0 is recorded, and reload asks the server for page -1 | never ask for a page below the first | medium, not executed | `WordsManagement.ReloadAfterEmptyFirstPage` (with `ReloadRequestAsWritten`) | `WordsManagement.LoadedPagesNotNegative` (with `ReloadRequest`, used by `WordsScreen.HandleReload`) |
| vocabup-admin/src/components/Post/Comments.tsx:364-373 | the nested reply list's delete drops the reply from the shown replies once the request settles, whatever its outcome | the server refuses the delete of the only reply: the reply disappears and the thread closes | change the thread only when the server accepted the delete | medium, not executed | `Comments.RefusedNestedDeleteHidesReply` (with `NestedDeleteAsWritten`) | `Comments.NestedDeleteSpec` (with `NestedDelete`, used by `CommentsView.OnNestedDelete`) |
| vocabup-admin/src/components/Modal/ActionLessonModal/ActionLessonModal.tsx:113-122 | the body maps `newWords` with `.map`, and "New Words" is an optional field that a new lesson loads as `undefined` | a new lesson given a title but no words: `undefined.map` throws inside `getTransferBody`, before either request, so the lesson is never added | send an untouched optional field as no words | medium, not executed | `ActionLessonModal.UntouchedWordsBlockSubmit` (with `SubmitAsWritten`) | `ActionLessonModal.SubmitRouting` (with `Submit`) |
