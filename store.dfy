/**
 * The axios response-error interceptor of the store: it classifies a failed
 * request by its response and dispatches actions of the `app` slice, then
 * hands a value back to the caller instead of rethrowing.
 */
module Store {
  import opened Json
  import Js
  import opened AppSlice

  /** A failed request: no response at all, or a response with a status and a body. */
  datatype HttpError = NoResponse | Failed(status: int, data: Json)

  /** What the interceptor resolves the caller's promise with. */
  datatype Outcome =
    | Placeholder(body: Json)  // `{data: {data: {}}}` when nothing came back
    | ErrorObject(err: HttpError)

  const ConnectionError := "Lỗi kết nối!"
  const NotFoundText := "Không tìm thấy API endpoint"

  predicate IsTokenExpired(status: int) { status == 401 }
  predicate IsForbidden(status: int) { status == 403 }
  predicate IsNotFound(status: int) { status == 404 }
  predicate IsServerError(status: int) { status > 500 }

  /** The content of the error message for a response that is not 401 or 403. */
  function ErrorContent(status: int, data: Json): Json
  {
    if IsNotFound(status) then Str(NotFoundText)
    else if IsServerError(status) then data
    else Get(data, "message")
  }

  /** The actions the interceptor dispatches, in order. */
  function Dispatches(err: HttpError): (r: seq<Action>)
    ensures |r| >= 2 && r[0] == LoadingFullScreen(Js.Some(false))
  {
    [LoadingFullScreen(Js.Some(false))] +
    match err
    case NoResponse => [Logout, CallMessage(Message(Error, Str(ConnectionError)))]
    case Failed(status, data) =>
      if IsTokenExpired(status) || IsForbidden(status) then [Logout, ToggleActionWordModal(false)]
      else [CallMessage(Message(Error, ErrorContent(status, data)))]
  }

  /** What the interceptor returns. */
  function Returned(err: HttpError): Outcome
  {
    match err
    case NoResponse => Placeholder(Obj(map["data" := Obj(map["data" := Obj(map[])])]))
    case Failed(_, _) => ErrorObject(err)
  }

  /** The classification: which branch posts which message, and which ones sign out. */
  lemma Classification(err: HttpError)
    ensures Logout in Dispatches(err) <==> err.NoResponse? || err.status == 401 || err.status == 403
    ensures ToggleActionWordModal(false) in Dispatches(err) <==> err.Failed? && (err.status == 401 || err.status == 403)
    ensures err.NoResponse? ==> CallMessage(Message(Error, Str(ConnectionError))) in Dispatches(err)
    ensures err.Failed? && err.status != 401 && err.status != 403 ==>
              Dispatches(err) == [LoadingFullScreen(Js.Some(false)), CallMessage(Message(Error, ErrorContent(err.status, err.data)))]
    ensures err.Failed? && (err.status == 401 || err.status == 403) ==>
              forall a :: a in Dispatches(err) ==> !a.CallMessage?
  {
  }

  /**
   * The message text: 404 has a fixed text, a status above 500 shows the
   * whole body, and every other status, exactly 500 included, shows the
   * body's `message`.
   */
  lemma ErrorContentByStatus(status: int, data: Json)
    ensures status == 404 ==> ErrorContent(status, data) == Str(NotFoundText)
    ensures status > 500 ==> ErrorContent(status, data) == data
    ensures status <= 500 && status != 404 ==> ErrorContent(status, data) == Get(data, "message")
    ensures ErrorContent(500, data) == Get(data, "message")
  {
  }

  /** The error itself is handed back except when there was no response, which yields a placeholder. */
  lemma NeverRethrows(err: HttpError)
    ensures err.Failed? ==> Returned(err) == ErrorObject(err)
    ensures err.NoResponse? ==>
              Returned(err).Placeholder? && Get(Get(Returned(err).body, "data"), "data") == Obj(map[])
  {
  }

  /**
   * The state after the dispatches: the loader is always off; no response
   * signs out (back on the first menu tab) and shows the connection error;
   * 401/403 sign out and close the word modal with the message untouched;
   * other statuses keep the user signed in as before and show the classified
   * error. Nothing else in the store changes.
   */
  lemma {:induction false} StateAfterError(s: AppState, err: HttpError)
    ensures var t := ReduceAll(s, Dispatches(err));
            !t.loadingFullScreen
            && (err.NoResponse? ==>
                  t == s.(loadingFullScreen := false, isAuthenticated := false, tabSelected := ["1"],
                          message := Js.Some(Message(Error, Str(ConnectionError)))))
            && (err.Failed? && (err.status == 401 || err.status == 403) ==>
                  t == s.(loadingFullScreen := false, isAuthenticated := false, tabSelected := ["1"],
                          openActionWordModal := false))
            && (err.Failed? && err.status != 401 && err.status != 403 ==>
                  t == s.(loadingFullScreen := false,
                          message := Js.Some(Message(Error, ErrorContent(err.status, err.data)))))
  {
    var d := Dispatches(err);
    var s1 := Reduce(s, d[0]);
    assert ReduceAll(s, d) == ReduceAll(s1, d[1..]);
    var s2 := Reduce(s1, d[1]);
    assert ReduceAll(s1, d[1..]) == ReduceAll(s2, d[2..]);
    if |d| == 3 {
      assert ReduceAll(s2, d[2..]) == ReduceAll(Reduce(s2, d[2]), d[3..]);
    }
  }

  /**
   * The interceptor's error handler: dispatches to the `app` store in order
   * and returns what the caller's promise resolves with.
   */
  method Intercept(app: AppStore, err: HttpError) returns (result: Outcome)
    modifies app
    ensures app.State() == ReduceAll(old(app.State()), Dispatches(err))
    ensures result == Returned(err)
  {
    ghost var s0 := app.State();
    app.Dispatch(LoadingFullScreen(Js.Some(false)));
    if err.NoResponse? {
      app.Dispatch(Logout);
      app.Dispatch(CallMessage(Message(Error, Str(ConnectionError))));
      DispatchesUnfold3(s0, Dispatches(err));
      return Placeholder(Obj(map["data" := Obj(map["data" := Obj(map[])])]));
    }
    if IsTokenExpired(err.status) || IsForbidden(err.status) {
      app.Dispatch(Logout);
      app.Dispatch(ToggleActionWordModal(false));
      DispatchesUnfold3(s0, Dispatches(err));
    } else {
      var content := Get(err.data, "message");
      if IsServerError(err.status) {
        content := err.data;
      }
      if IsNotFound(err.status) {
        content := Str(NotFoundText);
      }
      app.Dispatch(CallMessage(Message(Error, content)));
      DispatchesUnfold2(s0, Dispatches(err));
    }
    return ErrorObject(err);
  }

  lemma DispatchesUnfold2(s: AppState, d: seq<Action>)
    requires |d| == 2
    ensures ReduceAll(s, d) == Reduce(Reduce(s, d[0]), d[1])
  {
    assert ReduceAll(s, d) == ReduceAll(Reduce(s, d[0]), d[1..]);
    assert ReduceAll(Reduce(s, d[0]), d[1..]) == ReduceAll(Reduce(Reduce(s, d[0]), d[1]), d[2..]);
  }

  lemma DispatchesUnfold3(s: AppState, d: seq<Action>)
    requires |d| == 3
    ensures ReduceAll(s, d) == Reduce(Reduce(Reduce(s, d[0]), d[1]), d[2])
  {
    assert ReduceAll(s, d) == ReduceAll(Reduce(s, d[0]), d[1..]);
    DispatchesUnfold2(Reduce(s, d[0]), d[1..]);
  }
}
