/**
 * The notifications panel: a paged list of app notifications that can be
 * extended, reloaded, filtered, pushed to and deleted from, and the admin
 * search that feeds its sender filter.
 */
module FilterNotifications {
  import opened Js
  import opened Lists
  import Json
  import AppSlice

  /** Who sent a notification: id, full name and avatar as the server or the store gave them. */
  datatype Sender = Sender(id: Json.Json, fullName: Json.Json, avatar: Json.Json)

  datatype Notification = Notification(id: string, sender: Sender, title: string, message: string)

  /** The panel's paging: the page it is on, the page size, and whether the server has more. */
  datatype PageInfo = PageInfo(currPage: int, pageSize: int, hasNext: bool)

  const InitialPage := PageInfo(0, 3, true)

  /** The filter: a text query, a sender admin id, and a date range (each `Null` when unset). */
  datatype FilterInfo = FilterInfo(q: string, adminId: Val, start: Val, end: Val)

  const InitialFilter := FilterInfo("", Null, Null, Null)

  /** A notifications request: page, size and the filter as query parameters. */
  datatype Request = Request(page: int, size: int, filter: FilterInfo)

  /** The list and its paging together. */
  datatype Panel = Panel(notifications: seq<Notification>, info: PageInfo)

  /**
   * `handleGetNotifications(page?, size?)`'s request: the given page when
   * one is given, else the current page; the given size when it is truthy,
   * else the page size.
   */
  function GetRequest(p: PageInfo, page: Option<int>, size: Option<int>, f: FilterInfo): Request
  {
    Request(if page.Some? then page.value else p.currPage,
            if size.Some? && size.value != 0 then size.value else p.pageSize,
            f)
  }

  /**
   * `handleGetNotifications`'s reply: on success a page numbered one past
   * the current page is appended and any other replaces the list; the
   * current page follows the reply only when no page was given; `hasNext`
   * follows the reply and the page size stays.
   */
  function Loaded(s: Panel, page: Option<int>, status: int, respPage: int, got: seq<Notification>, hasNext: bool): Panel
  {
    if status >= 400 then s
    else Panel(if respPage == s.info.currPage + 1 then s.notifications + got else got,
               s.info.(currPage := if page.Some? then s.info.currPage else respPage, hasNext := hasNext))
  }

  lemma LoadedSpec(s: Panel, page: Option<int>, status: int, respPage: int, got: seq<Notification>, hasNext: bool)
    ensures status >= 400 ==> Loaded(s, page, status, respPage, got, hasNext) == s
    ensures status < 400 ==>
              var t := Loaded(s, page, status, respPage, got, hasNext);
              (respPage == s.info.currPage + 1 ==> t.notifications[..|s.notifications|] == s.notifications
                                                   && t.notifications[|s.notifications|..] == got)
              && (respPage != s.info.currPage + 1 ==> t.notifications == got)
              && (t.info.currPage == s.info.currPage <==> page.Some? || respPage == s.info.currPage)
              && (page.None? ==> t.info.currPage == respPage)
              && t.info.pageSize == s.info.pageSize && t.info.hasNext == hasNext
  {
  }

  /**
   * "Show more" asks again for the page the panel is on, with the page
   * size; if the server reports back the page it was asked for, the reply
   * replaces the list instead of extending it, and the panel stays on the
   * same page.
   */
  lemma ShowMoreSpec(s: Panel, f: FilterInfo, status: int, got: seq<Notification>, hasNext: bool)
    requires status < 400
    ensures GetRequest(s.info, None, None, f) == Request(s.info.currPage, s.info.pageSize, f)
    ensures var req := GetRequest(s.info, None, None, f);
            Loaded(s, None, status, req.page, got, hasNext) == Panel(got, s.info.(hasNext := hasNext))
  {
  }

  /** `handleReloadNotifications`: page 0, as many as are shown (the page size when none are). */
  function ReloadRequest(s: Panel, f: FilterInfo): Request
  {
    GetRequest(s.info, Some(0), Some(|s.notifications|), f)
  }

  /**
   * A reload asks for page 0 with the number of shown notifications, or
   * the page size when none are shown; a successful reload keeps the
   * current page, and a reply for page 0 from a panel past page 0 replaces
   * the list with what the server sent.
   */
  lemma ReloadSpec(s: Panel, f: FilterInfo, status: int, respPage: int, got: seq<Notification>, hasNext: bool)
    ensures s.notifications != [] ==> ReloadRequest(s, f) == Request(0, |s.notifications|, f)
    ensures s.notifications == [] ==> ReloadRequest(s, f) == Request(0, s.info.pageSize, f)
    ensures status < 400 ==> Loaded(s, Some(0), status, respPage, got, hasNext).info.currPage == s.info.currPage
    ensures status < 400 && respPage == 0 && s.info.currPage != -1 ==>
              Loaded(s, Some(0), status, respPage, got, hasNext).notifications == got
  {
  }

  /** `handleFilterNotifications`'s request: page 0 with the page size. */
  function FilterRequest(s: Panel, f: FilterInfo): Request
  {
    Request(0, s.info.pageSize, f)
  }

  /** `handleFilterNotifications`'s reply: on success the list and all paging come from the reply. */
  function Filtered(s: Panel, status: int, respPage: int, respSize: int, got: seq<Notification>, hasNext: bool): Panel
  {
    if status < 400 then Panel(got, PageInfo(respPage, respSize, hasNext)) else s
  }

  lemma FilteredSpec(s: Panel, f: FilterInfo, status: int, respPage: int, respSize: int, got: seq<Notification>, hasNext: bool)
    ensures FilterRequest(s, f).page == 0 && FilterRequest(s, f).size == s.info.pageSize && FilterRequest(s, f).filter == f
    ensures status < 400 ==>
              var t := Filtered(s, status, respPage, respSize, got, hasNext);
              t.notifications == got && t.info.currPage == respPage && t.info.pageSize == respSize && t.info.hasNext == hasNext
    ensures status >= 400 ==> Filtered(s, status, respPage, respSize, got, hasNext) == s
  {
  }

  /** One settled `handleGetNotifications` call: the page it was given and the server's reply. */
  datatype Load = Load(page: Option<int>, status: int, respPage: int, got: seq<Notification>, hasNext: bool)

  /** The panel after a run of loads (mount, "show more", reload), in order. */
  function LoadedAll(s: Panel, loads: seq<Load>): Panel
    decreases |loads|
  {
    if loads == [] then s
    else
      var l := loads[0];
      LoadedAll(Loaded(s, l.page, l.status, l.respPage, l.got, l.hasNext), loads[1..])
  }

  /** No load changes the page size. */
  lemma {:induction false} LoadsKeepPageSize(s: Panel, loads: seq<Load>)
    ensures LoadedAll(s, loads).info.pageSize == s.info.pageSize
    decreases |loads|
  {
    if loads != [] {
      var l := loads[0];
      LoadsKeepPageSize(Loaded(s, l.page, l.status, l.respPage, l.got, l.hasNext), loads[1..]);
    }
  }

  /**
   * A filter forgets every load before it: after any run of loads it sends
   * the same request as from the panel the loads started on, and a
   * successful filter then shows the same panel.
   */
  lemma FilterForgetsLoads(s: Panel, loads: seq<Load>, f: FilterInfo, status: int, respPage: int, respSize: int,
                           got: seq<Notification>, hasNext: bool)
    ensures FilterRequest(LoadedAll(s, loads), f) == FilterRequest(s, f)
    ensures status < 400 ==>
              Filtered(LoadedAll(s, loads), status, respPage, respSize, got, hasNext)
              == Filtered(s, status, respPage, respSize, got, hasNext)
  {
    LoadsKeepPageSize(s, loads);
  }

  /** `admin?.key`. */
  function AdminField(admin: Option<AppSlice.Admin>, key: string): Json.Json
  {
    if admin.Some? then Json.Get(Json.Obj(admin.value), key) else Json.Undefined
  }

  /** The sender a pushed notification is given: the signed-in admin, each field falling back to "". */
  function SenderOf(admin: Option<AppSlice.Admin>): Sender
  {
    Sender(Json.Or(AdminField(admin, "uid"), Json.Str("")),
           Json.Or(AdminField(admin, "fullName"), Json.Str("")),
           Json.Or(AdminField(admin, "avatar"), Json.Str("")))
  }

  /** The push listener: the new notification goes first, sent by the signed-in admin. */
  function Pushed(list: seq<Notification>, n: Notification, admin: Option<AppSlice.Admin>): seq<Notification>
  {
    [n.(sender := SenderOf(admin))] + list
  }

  /** `handleDeleteNotification`'s reply: on success every notification with that id leaves. */
  function Deleted(list: seq<Notification>, id: string, status: int): seq<Notification>
  {
    if status < 400 then Filter(list, (n: Notification) => n.id != id) else list
  }

  /**
   * A pushed notification comes first with its own id, title and message,
   * and the signed-in admin's id, name and avatar as sender, each "" when
   * the admin lacks it; the rest of the list follows unchanged.
   */
  lemma PushedSpec(list: seq<Notification>, n: Notification, admin: Option<AppSlice.Admin>)
    ensures var r := Pushed(list, n, admin);
            |r| == |list| + 1 && r[1..] == list
            && r[0].id == n.id && r[0].title == n.title && r[0].message == n.message
    ensures var snd := Pushed(list, n, admin)[0].sender;
            (admin.None? ==> snd == Sender(Json.Str(""), Json.Str(""), Json.Str("")))
            && (admin.Some? && "uid" in admin.value && Json.Truthy(admin.value["uid"]) ==> snd.id == admin.value["uid"])
            && (admin.Some? && "fullName" in admin.value && Json.Truthy(admin.value["fullName"]) ==> snd.fullName == admin.value["fullName"])
            && (admin.Some? && "avatar" in admin.value && Json.Truthy(admin.value["avatar"]) ==> snd.avatar == admin.value["avatar"])
  {
  }

  /**
   * A successful delete removes exactly the notifications with that id and
   * keeps the others in order, a failed one changes nothing, and deleting
   * a just-pushed notification whose id was not shown restores the list.
   */
  lemma DeletedSpec(list: seq<Notification>, id: string, status: int, n: Notification, admin: Option<AppSlice.Admin>)
    ensures status >= 400 ==> Deleted(list, id, status) == list
    ensures status < 400 ==>
              Subseq(Deleted(list, id, status), list)
              && forall x :: x in Deleted(list, id, status) <==> x in list && x.id != id
    ensures status < 400 && (forall i :: 0 <= i < |list| ==> list[i].id != n.id) ==>
              Deleted(Pushed(list, n, admin), n.id, status) == list
  {
    FilterIsSubseq(list, (x: Notification) => x.id != id);
    if status < 400 && (forall i :: 0 <= i < |list| ==> list[i].id != n.id) {
      var keep := (x: Notification) => x.id != n.id;
      var p := Pushed(list, n, admin);
      assert p == [p[0]] + list;
      FilterAppend([p[0]], list, keep);
      FilterKeepsAll(list, keep);
      assert Filter([p[0]], keep) == [];
    }
  }

  /** `handleSearchAdmins`: the search is started only for a query with a non-blank character. */
  predicate ShouldSearch(q: string)
  {
    !IsBlank(q)
  }

  lemma ShouldSearchSpec(q: string)
    ensures ShouldSearch(q) <==> exists i :: 0 <= i < |q| && !IsSpace(q[i])
  {
    BlankIffAllSpace(q);
  }

  /** The panel's state fields. */
  class NotificationsPanel {
    var loading: bool
    var pageInfo: PageInfo
    var notifications: seq<Notification>
    var filterInfo: FilterInfo
    var searchedAdmins: seq<Json.Json>

    function State(): Panel
      reads this
    {
      Panel(notifications, pageInfo)
    }

    /** The panel starts with the signed-in admin as the only sender option. */
    constructor (admin: Option<AppSlice.Admin>)
      ensures State() == Panel([], InitialPage) && filterInfo == InitialFilter && !loading
      ensures searchedAdmins == [if admin.Some? then Json.Obj(admin.value) else Json.Null]
    {
      loading := false;
      pageInfo := InitialPage;
      notifications := [];
      filterInfo := InitialFilter;
      searchedAdmins := [if admin.Some? then Json.Obj(admin.value) else Json.Null];
    }

    /** `handleGetNotifications`, given the server's reply. */
    method GetNotifications(page: Option<int>, size: Option<int>, status: int, respPage: int, got: seq<Notification>, hasNext: bool)
      returns (req: Request)
      modifies this
      ensures req == GetRequest(old(pageInfo), page, size, old(filterInfo))
      ensures State() == Loaded(old(State()), page, status, respPage, got, hasNext)
      ensures !loading && filterInfo == old(filterInfo) && searchedAdmins == old(searchedAdmins)
    {
      loading := true;
      req := Request(if page.Some? then page.value else pageInfo.currPage,
                     if size.Some? && size.value != 0 then size.value else pageInfo.pageSize,
                     filterInfo);
      if status < 400 {
        if respPage == pageInfo.currPage + 1 {
          notifications := notifications + got;
        } else {
          notifications := got;
        }
        pageInfo := pageInfo.(currPage := if page.Some? then pageInfo.currPage else respPage, hasNext := hasNext);
      }
      loading := false;
    }

    /** The list's "show more" button and the mount effect. */
    method GetExtraNotifications(status: int, respPage: int, got: seq<Notification>, hasNext: bool) returns (req: Request)
      modifies this
      ensures req == GetRequest(old(pageInfo), None, None, old(filterInfo))
      ensures State() == Loaded(old(State()), None, status, respPage, got, hasNext)
      ensures !loading && filterInfo == old(filterInfo) && searchedAdmins == old(searchedAdmins)
    {
      req := GetNotifications(None, None, status, respPage, got, hasNext);
    }

    method HandleReloadNotifications(status: int, respPage: int, got: seq<Notification>, hasNext: bool) returns (req: Request)
      modifies this
      ensures req == ReloadRequest(old(State()), old(filterInfo))
      ensures State() == Loaded(old(State()), Some(0), status, respPage, got, hasNext)
      ensures !loading && filterInfo == old(filterInfo) && searchedAdmins == old(searchedAdmins)
    {
      req := GetNotifications(Some(0), Some(|notifications|), status, respPage, got, hasNext);
    }

    method HandleFilterNotifications(status: int, respPage: int, respSize: int, got: seq<Notification>, hasNext: bool)
      returns (req: Request)
      modifies this
      ensures req == FilterRequest(old(State()), old(filterInfo))
      ensures State() == Filtered(old(State()), status, respPage, respSize, got, hasNext)
      ensures !loading && filterInfo == old(filterInfo) && searchedAdmins == old(searchedAdmins)
    {
      loading := true;
      req := Request(0, pageInfo.pageSize, filterInfo);
      if status < 400 {
        notifications := got;
        pageInfo := PageInfo(respPage, respSize, hasNext);
      }
      loading := false;
    }

    method HandleChangeQueryString(q: string)
      modifies this
      ensures filterInfo == old(filterInfo).(q := q)
      ensures State() == old(State()) && loading == old(loading) && searchedAdmins == old(searchedAdmins)
    {
      filterInfo := filterInfo.(q := q);
    }

    /** The date range picker: both ends are taken from the picker's date strings. */
    method HandleChangeDateFilter(start: string, end: string)
      modifies this
      ensures filterInfo == old(filterInfo).(start := Str(start), end := Str(end))
      ensures State() == old(State()) && loading == old(loading) && searchedAdmins == old(searchedAdmins)
    {
      filterInfo := filterInfo.(start := Str(start), end := Str(end));
    }

    /** The sender select; clearing it gives `Absent`. */
    method HandleChangeAdmin(adminId: Val)
      modifies this
      ensures filterInfo == old(filterInfo).(adminId := adminId)
      ensures State() == old(State()) && loading == old(loading) && searchedAdmins == old(searchedAdmins)
    {
      filterInfo := filterInfo.(adminId := adminId);
    }

    /** Cancelling the query confirmation empties the query. */
    method HandleCancelQuery()
      modifies this
      ensures filterInfo == old(filterInfo).(q := "")
      ensures State() == old(State()) && loading == old(loading) && searchedAdmins == old(searchedAdmins)
    {
      filterInfo := filterInfo.(q := "");
    }

    /** Cancelling the date confirmation unsets both ends. */
    method HandleCancelDates()
      modifies this
      ensures filterInfo == old(filterInfo).(start := Null, end := Null)
      ensures State() == old(State()) && loading == old(loading) && searchedAdmins == old(searchedAdmins)
    {
      filterInfo := filterInfo.(start := Null, end := Null);
    }

    /**
     * `handleSearchAdmins` followed by the (debounced) `loadAdminsBySearch`:
     * a blank query searches nothing; otherwise a successful search
     * replaces the sender options.
     */
    method HandleSearchAdmins(q: string, status: int, admins: seq<Json.Json>) returns (searched: bool)
      modifies this
      ensures searched == ShouldSearch(q)
      ensures searchedAdmins == (if searched && status < 400 then admins else old(searchedAdmins))
      ensures State() == old(State()) && filterInfo == old(filterInfo) && loading == old(loading)
    {
      searched := !IsBlank(q);
      if searched && status < 400 {
        searchedAdmins := admins;
      }
    }

    /** `handleDeleteNotification`; a success also shows the reply's message. */
    method HandleDeleteNotification(app: AppSlice.AppStore, id: string, status: int, reply: Json.Json)
      modifies this, app
      ensures notifications == Deleted(old(notifications), id, status)
      ensures pageInfo == old(pageInfo) && !loading && filterInfo == old(filterInfo) && searchedAdmins == old(searchedAdmins)
      ensures app.State() == (if status < 400
                              then AppSlice.Reduce(old(app.State()), AppSlice.CallMessage(AppSlice.Message(AppSlice.Success, Json.Get(reply, "message"))))
                              else old(app.State()))
    {
      loading := true;
      loading := false;
      if status < 400 {
        notifications := Filter(notifications, (n: Notification) => n.id != id);
        app.Dispatch(AppSlice.CallMessage(AppSlice.Message(AppSlice.Success, Json.Get(reply, "message"))));
      }
    }

    /** The push listener, given the store's current admin. */
    method OnPushAppNotification(n: Notification, admin: Option<AppSlice.Admin>)
      modifies this
      ensures notifications == Pushed(old(notifications), n, admin)
      ensures pageInfo == old(pageInfo) && loading == old(loading) && filterInfo == old(filterInfo) && searchedAdmins == old(searchedAdmins)
    {
      notifications := [n.(sender := SenderOf(admin))] + notifications;
    }
  }
}
