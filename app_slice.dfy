/**
 * The `app` slice of the Redux store: authentication, the selected sidebar
 * tab, the login status, the signed-in admin's record, the pending toast
 * message, the word modal's visibility, the full-screen loader and the UI
 * language. `Reduce` is the slice's reducer on values; `AppStore` holds the
 * same fields and applies an action in place, as Immer's drafts do.
 */
module AppSlice {
  import opened Json
  import Js

  datatype LoginStatus = Idle | Pending | Fulfilled | Rejected

  datatype Language = Vi | En

  /** The two message kinds the slice and the interceptor post. */
  datatype MessageKind = Success | Error

  /** A toast message; its content is whatever the server sent, usually a string. */
  datatype Message = Message(kind: MessageKind, content: Json)

  /** The admin record, key by key. */
  type Admin = map<string, Json>

  datatype AppState = AppState(
    isAuthenticated: bool,
    tabSelected: seq<string>,
    loginStatus: LoginStatus,
    admin: Js.Option<Admin>,
    message: Js.Option<Message>,
    openActionWordModal: bool,
    loadingFullScreen: bool,
    language: Language)

  const Initial := AppState(true, ["1"], Idle, Js.None, Js.None, false, false, Vi)

  /** The text shown when a rejected thunk carries no message. */
  const UnknownError := "Lỗi không xác định <appSlice.ts>"

  /**
   * The slice's actions. `LoadingFullScreen(None)` is the call without a
   * payload; the `login` and `getAccountInfo` thunks contribute their
   * pending, fulfilled and rejected actions, with the reply's message and
   * `data.info` as payload.
   */
  datatype Action =
    | Logout
    | SelectMenuSidebar(tabs: seq<string>)
    | ToggleActionWordModal(open: bool)
    | CallMessage(msg: Message)
    | LoadingFullScreen(flag: Js.Option<bool>)
    | UpdateAccountInfo(patch: Admin)
    | SetLanguage(lang: Language)
    | LoginPending
    | LoginFulfilled(reply: Json, info: Admin)
    | LoginRejected(reply: Json)
    | AccountInfoPending
    | AccountInfoFulfilled(info: Admin)
    | AccountInfoRejected(reply: Json)

  /** `{...admin, ...patch}`: spreading `null` contributes no keys. */
  function Merge(admin: Js.Option<Admin>, patch: Admin): Admin
  {
    match admin
    case None => patch
    case Some(a) => a + patch
  }

  /** The error message of a rejected thunk: the payload's message, or the fixed text when that is falsy. */
  function RejectionMessage(reply: Json): (m: Message)
    ensures m.kind == Error && Truthy(m.content)
  {
    Message(Error, Or(Reply(reply), Str(UnknownError)))
  }

  /** `payload.message`. */
  function Reply(reply: Json): Json
  {
    Get(reply, "message")
  }

  function Reduce(s: AppState, a: Action): AppState
  {
    match a
    case Logout => s.(isAuthenticated := false, tabSelected := ["1"])
    case SelectMenuSidebar(tabs) => s.(tabSelected := tabs)
    case ToggleActionWordModal(open) => s.(openActionWordModal := open)
    case CallMessage(msg) => s.(message := Js.Some(msg))
    case LoadingFullScreen(flag) =>
      s.(loadingFullScreen := if flag.None? then !s.loadingFullScreen else flag.value)
    case UpdateAccountInfo(patch) => s.(admin := Js.Some(Merge(s.admin, patch)))
    case SetLanguage(lang) => s.(language := lang)
    case LoginPending => s.(isAuthenticated := false, loginStatus := Pending, admin := Js.None)
    case LoginFulfilled(reply, info) =>
      s.(isAuthenticated := true, loginStatus := Fulfilled, admin := Js.Some(info),
         message := Js.Some(Message(Success, Reply(reply))))
    case LoginRejected(reply) =>
      s.(isAuthenticated := false, loginStatus := Rejected, admin := Js.None,
         message := Js.Some(RejectionMessage(reply)))
    case AccountInfoPending => s.(loadingFullScreen := true)
    case AccountInfoFulfilled(info) => s.(loadingFullScreen := false, admin := Js.Some(info))
    case AccountInfoRejected(reply) =>
      s.(loadingFullScreen := false, admin := Js.None, message := Js.Some(RejectionMessage(reply)))
  }

  /** The state after the actions, dispatched in order. */
  function ReduceAll(s: AppState, actions: seq<Action>): AppState
    decreases |actions|
  {
    if actions == [] then s else ReduceAll(Reduce(s, actions[0]), actions[1..])
  }

  /**
   * `logout` signs out and selects the first tab; the login status, the
   * admin record and everything else stay as they were.
   */
  lemma LogoutOnlySignsOut(s: AppState)
    ensures var t := Reduce(s, Logout);
            !t.isAuthenticated && t.tabSelected == ["1"]
            && t.loginStatus == s.loginStatus && t.admin == s.admin && t.message == s.message
            && t.openActionWordModal == s.openActionWordModal
            && t.loadingFullScreen == s.loadingFullScreen && t.language == s.language
    ensures Reduce(Reduce(s, Logout), Logout) == Reduce(s, Logout)
  {
  }

  /** Without a payload the loader flag toggles, so two such calls restore it; with one it is set. */
  lemma LoadingToggleAndSet(s: AppState, b: bool)
    ensures Reduce(s, LoadingFullScreen(Js.None)).loadingFullScreen == !s.loadingFullScreen
    ensures Reduce(Reduce(s, LoadingFullScreen(Js.None)), LoadingFullScreen(Js.None)) == s
    ensures Reduce(s, LoadingFullScreen(Js.Some(b))).loadingFullScreen == b
    ensures Reduce(s, LoadingFullScreen(Js.Some(b))) == Reduce(Reduce(s, LoadingFullScreen(Js.Some(b))), LoadingFullScreen(Js.Some(b)))
  {
  }

  /**
   * `updateAccountInfo` is a shallow merge: every key of the payload reads
   * the payload's value, every other key of the stored admin keeps its value,
   * and no other key appears; merging the same payload twice is merging it once.
   */
  lemma UpdateAccountInfoMerges(s: AppState, patch: Admin, k: string)
    ensures var t := Reduce(s, UpdateAccountInfo(patch));
            t.admin.Some?
            && (k in patch ==> k in t.admin.value && t.admin.value[k] == patch[k])
            && (k !in patch && s.admin.Some? && k in s.admin.value ==>
                  k in t.admin.value && t.admin.value[k] == s.admin.value[k])
            && (k in t.admin.value ==> k in patch || (s.admin.Some? && k in s.admin.value))
            && t == s.(admin := t.admin)
    ensures Reduce(Reduce(s, UpdateAccountInfo(patch)), UpdateAccountInfo(patch))
            == Reduce(s, UpdateAccountInfo(patch))
  {
    var m := Merge(s.admin, patch);
    assert m + patch == m;
  }

  /**
   * Login pending and rejected leave nobody signed in and no admin; rejected
   * also posts an error whose text is never empty. Fulfilled signs in with the
   * reply's admin and posts a success message.
   */
  lemma LoginOutcomes(s: AppState, reply: Json, info: Admin)
    ensures var p := Reduce(s, LoginPending);
            !p.isAuthenticated && p.admin.None? && p.loginStatus == Pending && p.message == s.message
    ensures var r := Reduce(s, LoginRejected(reply));
            !r.isAuthenticated && r.admin.None? && r.loginStatus == Rejected
            && r.message.Some? && r.message.value.kind == Error && Truthy(r.message.value.content)
            && (Truthy(Get(reply, "message")) ==> r.message.value.content == Get(reply, "message"))
            && (!Truthy(Get(reply, "message")) ==> r.message.value.content == Str(UnknownError))
    ensures var f := Reduce(s, LoginFulfilled(reply, info));
            f.isAuthenticated && f.admin == Js.Some(info) && f.loginStatus == Fulfilled
            && f.message == Js.Some(Message(Success, Get(reply, "message")))
  {
  }

  /**
   * `getAccountInfo` raises the loader while pending and lowers it when it
   * settles either way; failure drops the admin and posts an error.
   */
  lemma AccountInfoOutcomes(s: AppState, reply: Json, info: Admin)
    ensures Reduce(s, AccountInfoPending).loadingFullScreen
    ensures var f := Reduce(Reduce(s, AccountInfoPending), AccountInfoFulfilled(info));
            !f.loadingFullScreen && f.admin == Js.Some(info) && f.message == s.message
            && f.isAuthenticated == s.isAuthenticated
    ensures var r := Reduce(Reduce(s, AccountInfoPending), AccountInfoRejected(reply));
            !r.loadingFullScreen && r.admin.None? && r.message == Js.Some(RejectionMessage(reply))
            && r.isAuthenticated == s.isAuthenticated
  {
  }

  /** `selectMenuSidebar`, `toggleActionWordModal`, `callMessage` and `setLanguage` each write only their own field. */
  lemma SettersWriteOwnField(s: AppState, tabs: seq<string>, open: bool, msg: Message, lang: Language)
    ensures Reduce(s, SelectMenuSidebar(tabs)) == s.(tabSelected := tabs)
    ensures Reduce(s, ToggleActionWordModal(open)) == s.(openActionWordModal := open)
    ensures Reduce(s, CallMessage(msg)) == s.(message := Js.Some(msg))
    ensures Reduce(s, SetLanguage(lang)) == s.(language := lang)
  {
  }

  /** Dispatching a list of actions in two parts is dispatching the first part and then the second. */
  lemma {:induction false} ReduceAllAppend(s: AppState, xs: seq<Action>, ys: seq<Action>)
    ensures ReduceAll(s, xs + ys) == ReduceAll(ReduceAll(s, xs), ys)
    decreases |xs|
  {
    if xs == [] {
      assert xs + ys == ys;
    } else {
      assert (xs + ys)[0] == xs[0] && (xs + ys)[1..] == xs[1..] + ys;
      ReduceAllAppend(Reduce(s, xs[0]), xs[1..], ys);
    }
  }

  /** The slice's state, updated in place by its reducers. */
  class AppStore {
    var isAuthenticated: bool
    var tabSelected: seq<string>
    var loginStatus: LoginStatus
    var admin: Js.Option<Admin>
    var message: Js.Option<Message>
    var openActionWordModal: bool
    var loadingFullScreen: bool
    var language: Language

    function State(): AppState
      reads this
    {
      AppState(isAuthenticated, tabSelected, loginStatus, admin, message,
               openActionWordModal, loadingFullScreen, language)
    }

    constructor ()
      ensures State() == Initial
    {
      isAuthenticated := true;
      tabSelected := ["1"];
      loginStatus := Idle;
      admin := Js.None;
      message := Js.None;
      openActionWordModal := false;
      loadingFullScreen := false;
      language := Vi;
    }

    /** `dispatch(action)`: runs the action's case reducer on the fields. */
    method Dispatch(a: Action)
      modifies this
      ensures State() == Reduce(old(State()), a)
    {
      match a
      case Logout =>
        isAuthenticated := false;
        tabSelected := ["1"];
      case SelectMenuSidebar(tabs) =>
        tabSelected := tabs;
      case ToggleActionWordModal(open) =>
        openActionWordModal := open;
      case CallMessage(msg) =>
        message := Js.Some(msg);
      case LoadingFullScreen(flag) =>
        if flag.None? {
          loadingFullScreen := !loadingFullScreen;
        } else {
          loadingFullScreen := flag.value;
        }
      case UpdateAccountInfo(patch) =>
        admin := Js.Some(Merge(admin, patch));
      case SetLanguage(lang) =>
        language := lang;
      case LoginPending =>
        isAuthenticated := false;
        loginStatus := Pending;
        admin := Js.None;
      case LoginFulfilled(reply, info) =>
        isAuthenticated := true;
        loginStatus := Fulfilled;
        admin := Js.Some(info);
        message := Js.Some(Message(Success, Reply(reply)));
      case LoginRejected(reply) =>
        isAuthenticated := false;
        loginStatus := Rejected;
        admin := Js.None;
        message := Js.Some(RejectionMessage(reply));
      case AccountInfoPending =>
        loadingFullScreen := true;
      case AccountInfoFulfilled(info) =>
        loadingFullScreen := false;
        admin := Js.Some(info);
      case AccountInfoRejected(reply) =>
        loadingFullScreen := false;
        admin := Js.None;
        message := Js.Some(RejectionMessage(reply));
    }
  }
}
