/**
 * The users screen: a paged list of learners in two tabs (available and
 * hidden), the filter form, and hiding, enabling and deleting users.
 */
module UsersManagement {
  import opened Js
  import opened Lists
  import opened Paging
  import opened Members
  import Json
  import AppSlice

  /** The filter form's values, key by key. */
  type Filters = map<string, Json.Json>

  /** Empty search texts and no dates. */
  const InitialFilters: Filters :=
    map["q" := Json.Str(""), "gender" := Json.Str(""), "addr" := Json.Str(""), "fromDate" := Json.Null, "toDate" := Json.Null]

  /** `handleChangeFilterInfo`: `{...prev, [key]: val}`. */
  function ChangeFilter(f: Filters, key: string, val: Json.Json): Filters
  {
    f[key := val]
  }

  /** Changing one filter sets that key and keeps every other key and value. */
  lemma ChangeFilterSpec(f: Filters, key: string, val: Json.Json)
    ensures ChangeFilter(f, key, val).Keys == f.Keys + {key}
    ensures ChangeFilter(f, key, val)[key] == val
    ensures forall k :: k in f && k != key ==> ChangeFilter(f, key, val)[k] == f[k]
  {
  }

  /** A page request of the users endpoint: the backend page, the tab, and the filters. */
  datatype UsersRequest = UsersRequest(page: PageRequest, hidden: bool, filters: Filters)

  /** The screen's state fields. */
  datatype View = View(users: seq<Member>, hidden: bool, info: PageInfo, filters: Filters)

  const Initial := View([], false, InitialPage, InitialFilters)

  /** `getUsersInfo`'s request: table page `needPage`, the given tab, the current filters. */
  function LoadRequest(v: View, needPage: int, size: int, hidden: bool): UsersRequest
  {
    UsersRequest(PageRequestFor(needPage, size), hidden, v.filters)
  }

  /**
   * `getUsersInfo` reads `response.data.users` without a status check. An
   * accepted reply's users and total are shown; a refused request resolves
   * with the error object, which has no `data`, so that read throws before
   * either setter and the view stays as it was.
   */
  function UsersLoaded(v: View, needPage: int, size: int, status: int, got: seq<Member>, total: int): View
  {
    if status < 400 then v.(users := got, info := PageLoaded(v.info, needPage, size, total)) else v
  }

  /**
   * Loading page p asks for backend page p - 1 with the current filters; an
   * accepted load shows the reply's users as page p with the requested size
   * and the reported total, keeping the tab and the filters, and a refused
   * one changes nothing.
   */
  lemma UsersLoadedSpec(v: View, needPage: int, size: int, hidden: bool, status: int, got: seq<Member>, total: int)
    ensures LoadRequest(v, needPage, size, hidden).page == PageRequest(needPage - 1, size)
    ensures LoadRequest(v, needPage, size, hidden).filters == v.filters
    ensures status < 400 ==>
              UsersLoaded(v, needPage, size, status, got, total)
              == View(got, v.hidden, PageInfo(needPage, size, total), v.filters)
    ensures status >= 400 ==> UsersLoaded(v, needPage, size, status, got, total) == v
  {
  }

  /** `handleFilterUsers`: page 1 of the shown tab with the shown size. */
  function FilterRequest(v: View): UsersRequest
  {
    LoadRequest(v, 1, v.info.size, v.hidden)
  }

  /** `handleChangeTabs`'s request: page 1 with the size shown before the switch, for the chosen tab. */
  function TabRequest(v: View, toAvailable: bool): UsersRequest
  {
    LoadRequest(v, 1, v.info.size, !toAvailable)
  }

  /** `handleChangeTabs`: the tab flag flips, paging resets, then page 1 is loaded. */
  function TabChanged(v: View, status: int, got: seq<Member>, total: int): View
  {
    UsersLoaded(v.(hidden := !v.hidden, info := InitialPage), 1, v.info.size, status, got, total)
  }

  /**
   * After a tab switch the flag is flipped. An accepted load shows page 1
   * with the size from before the switch (the reset's size 10 is
   * overwritten); a refused one leaves the reset paging and the old tab's
   * users. When the chosen tab is the other one, the flag and the request
   * agree.
   */
  lemma TabChangedSpec(v: View, toAvailable: bool, status: int, got: seq<Member>, total: int)
    ensures status < 400 ==>
              TabChanged(v, status, got, total) == View(got, !v.hidden, PageInfo(1, v.info.size, total), v.filters)
    ensures status >= 400 ==>
              TabChanged(v, status, got, total) == View(v.users, !v.hidden, InitialPage, v.filters)
    ensures TabRequest(v, toAvailable).page == PageRequest(0, v.info.size)
    ensures toAvailable == v.hidden ==> TabRequest(v, toAvailable).hidden == TabChanged(v, status, got, total).hidden
  {
  }

  /** `handleReload`: the shown page, or page 1 before any load, of the shown tab. */
  function ReloadUsersRequest(v: View): UsersRequest
  {
    LoadRequest(v, ReloadPage(v.info.currPage), v.info.size, v.hidden)
  }

  /**
   * A reload after an accepted load of page p >= 1 of the shown tab sends
   * that load's request again; after a refused load it sends the request it
   * would have sent before.
   */
  lemma ReloadRepeatsLoad(v: View, needPage: int, size: int, status: int, got: seq<Member>, total: int)
    requires needPage != 0
    ensures status < 400 ==>
              ReloadUsersRequest(UsersLoaded(v, needPage, size, status, got, total)) == LoadRequest(v, needPage, size, v.hidden)
    ensures status >= 400 ==>
              ReloadUsersRequest(UsersLoaded(v, needPage, size, status, got, total)) == ReloadUsersRequest(v)
  {
    ReloadRepeatsLastLoad(v.info, needPage, size, total);
  }

  /** `prev.filter(user => !userIds.includes(user._id))`. */
  function WithoutIds(users: seq<Member>, ids: seq<string>): seq<Member>
  {
    Filter(users, (u: Member) => u.id !in ids)
  }

  /** `handleDeleteUsers`: the ids go only when the status is below 400. */
  function UsersDeleted(users: seq<Member>, ids: seq<string>, status: int): seq<Member>
  {
    if status < 400 then WithoutIds(users, ids) else users
  }

  /**
   * Removing ids keeps exactly the users whose id is not listed, in their
   * order, and removing the same ids again changes nothing; a failed delete
   * changes nothing.
   */
  lemma WithoutIdsSpec(users: seq<Member>, ids: seq<string>, status: int)
    ensures forall u :: u in WithoutIds(users, ids) <==> u in users && u.id !in ids
    ensures Subseq(WithoutIds(users, ids), users)
    ensures WithoutIds(WithoutIds(users, ids), ids) == WithoutIds(users, ids)
    ensures status >= 400 ==> UsersDeleted(users, ids, status) == users
    ensures status < 400 ==> UsersDeleted(users, ids, status) == WithoutIds(users, ids)
  {
    FilterIsSubseq(users, (u: Member) => u.id !in ids);
    FilterIdempotent(users, (u: Member) => u.id !in ids);
  }

  /** The screen's state fields. */
  class UsersScreen {
    var users: seq<Member>
    var hidden: bool
    var pageInfo: PageInfo
    var filters: Filters

    function State(): View
      reads this
    {
      View(users, hidden, pageInfo, filters)
    }

    constructor ()
      ensures State() == Initial
    {
      users := [];
      hidden := false;
      pageInfo := InitialPage;
      filters := InitialFilters;
    }

    /**
     * `getUsersInfo`: an accepted load shows the reply's users and total; a
     * refused one throws (`threw`) and leaves the screen as it was.
     */
    method GetUsersInfo(needPage: int, size: int, tabHidden: bool, status: int, got: seq<Member>, total: int)
      returns (req: UsersRequest, threw: bool)
      modifies this
      ensures req == LoadRequest(old(State()), needPage, size, tabHidden)
      ensures threw <==> status >= 400
      ensures State() == UsersLoaded(old(State()), needPage, size, status, got, total)
    {
      req := UsersRequest(PageRequest(needPage - 1, size), tabHidden, filters);
      threw := status >= 400;
      if threw {
        return;
      }
      users := got;
      pageInfo := pageInfo.(size := size, currPage := needPage, totalRecords := total);
    }

    /** The mount effect: the page after the shown one (page 1 at first), of the shown tab. */
    method Mount(status: int, got: seq<Member>, total: int) returns (req: UsersRequest, threw: bool)
      modifies this
      ensures req == LoadRequest(old(State()), old(pageInfo.currPage) + 1, old(pageInfo.size), old(hidden))
      ensures threw <==> status >= 400
      ensures State() == UsersLoaded(old(State()), old(pageInfo.currPage) + 1, old(pageInfo.size), status, got, total)
    {
      req, threw := GetUsersInfo(pageInfo.currPage + 1, pageInfo.size, hidden, status, got, total);
    }

    method HandleFilterUsers(status: int, got: seq<Member>, total: int) returns (req: UsersRequest, threw: bool)
      modifies this
      ensures req == FilterRequest(old(State()))
      ensures threw <==> status >= 400
      ensures State() == UsersLoaded(old(State()), 1, old(pageInfo.size), status, got, total)
    {
      req, threw := GetUsersInfo(1, pageInfo.size, hidden, status, got, total);
    }

    method HandleChangeTabs(toAvailable: bool, status: int, got: seq<Member>, total: int) returns (req: UsersRequest, threw: bool)
      modifies this
      ensures req == TabRequest(old(State()), toAvailable)
      ensures threw <==> status >= 400
      ensures State() == TabChanged(old(State()), status, got, total)
    {
      var size := pageInfo.size;
      hidden := !hidden;
      pageInfo := InitialPage;
      req, threw := GetUsersInfo(1, size, !toAvailable, status, got, total);
    }

    method HandleChangePage(page: int, pageSize: int, status: int, got: seq<Member>, total: int)
      returns (req: UsersRequest, threw: bool)
      modifies this
      ensures req == LoadRequest(old(State()), page, pageSize, old(hidden))
      ensures threw <==> status >= 400
      ensures State() == UsersLoaded(old(State()), page, pageSize, status, got, total)
    {
      req, threw := GetUsersInfo(page, pageSize, hidden, status, got, total);
    }

    method HandleReload(status: int, got: seq<Member>, total: int) returns (req: UsersRequest, threw: bool)
      modifies this
      ensures req == ReloadUsersRequest(old(State()))
      ensures threw <==> status >= 400
      ensures State() == UsersLoaded(old(State()), ReloadPage(old(pageInfo.currPage)), old(pageInfo.size), status, got, total)
    {
      req, threw := GetUsersInfo(ReloadPage(pageInfo.currPage), pageInfo.size, hidden, status, got, total);
    }

    /**
     * `handleHideUsers`. The handler reads no status: the ids leave the list
     * whatever the reply. A refused request resolves with the error object,
     * which has no `data`, so reading the reply's message throws: no success
     * message is posted and the handler's promise rejects (`threw`).
     */
    method HandleHideUsers(app: AppSlice.AppStore, ids: seq<string>, status: int, reply: Json.Json) returns (threw: bool)
      modifies this, app
      ensures threw <==> status >= 400
      ensures State() == old(State()).(users := WithoutIds(old(users), ids))
      ensures app.State() == (if status < 400
                              then old(app.State()).(message := Some(AppSlice.Message(AppSlice.Success, Json.Get(reply, "message"))))
                              else old(app.State()))
    {
      users := Filter(users, (u: Member) => u.id !in ids);
      threw := status >= 400;
      if !threw {
        app.Dispatch(AppSlice.CallMessage(AppSlice.Message(AppSlice.Success, Json.Get(reply, "message"))));
      }
    }

    /** `handleEnableUsers`: as `HandleHideUsers`, for the hidden tab's list. */
    method HandleEnableUsers(app: AppSlice.AppStore, ids: seq<string>, status: int, reply: Json.Json) returns (threw: bool)
      modifies this, app
      ensures threw <==> status >= 400
      ensures State() == old(State()).(users := WithoutIds(old(users), ids))
      ensures app.State() == (if status < 400
                              then old(app.State()).(message := Some(AppSlice.Message(AppSlice.Success, Json.Get(reply, "message"))))
                              else old(app.State()))
    {
      users := Filter(users, (u: Member) => u.id !in ids);
      threw := status >= 400;
      if !threw {
        app.Dispatch(AppSlice.CallMessage(AppSlice.Message(AppSlice.Success, Json.Get(reply, "message"))));
      }
    }

    /** `handleDeleteUsers`: only an accepted delete removes the ids and shows the reply's message. */
    method HandleDeleteUsers(app: AppSlice.AppStore, ids: seq<string>, status: int, reply: Json.Json)
      modifies this, app
      ensures State() == old(State()).(users := UsersDeleted(old(users), ids, status))
      ensures app.State() == (if status < 400
                              then old(app.State()).(message := Some(AppSlice.Message(AppSlice.Success, Json.Get(reply, "message"))))
                              else old(app.State()))
    {
      if status < 400 {
        users := Filter(users, (u: Member) => u.id !in ids);
        app.Dispatch(AppSlice.CallMessage(AppSlice.Message(AppSlice.Success, Json.Get(reply, "message"))));
      }
    }

    method HandleChangeFilterInfo(key: string, val: Json.Json)
      modifies this
      ensures State() == old(State()).(filters := ChangeFilter(old(filters), key, val))
    {
      filters := filters[key := val];
    }
  }
}
