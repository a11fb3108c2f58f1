/**
 * The admins screen: a read-only paged list of administrators.
 */
module AdminsManagement {
  import opened Paging
  import opened Members

  datatype View = View(admins: seq<Member>, info: PageInfo)

  /**
   * `getAdminsInfo` reads `response.data.admins` without a status check. A
   * refused request resolves with the error object, which has no `data`, so
   * that read throws before either setter: the view stays as it was.
   */
  function AdminsLoaded(v: View, needPage: int, size: int, status: int, got: seq<Member>, total: int): View
  {
    if status < 400 then View(got, PageLoaded(v.info, needPage, size, total)) else v
  }

  /** The page the screen loads when it mounts: the page after the initial page 0. */
  function MountRequest(v: View): PageRequest
  {
    PageRequestFor(v.info.currPage + 1, v.info.size)
  }

  /**
   * Loading page p asks for backend page p - 1; an accepted load records
   * page p, the size and the reported total, and a refused one changes
   * nothing. On mount the screen asks for the first backend page of ten and
   * then shows page 1; a reload repeats the last accepted load, and after a
   * refused load it asks for the same page as before it.
   */
  lemma AdminsLoadedSpec(v: View, needPage: int, size: int, status: int, got: seq<Member>, total: int)
    ensures PageRequestFor(needPage, size) == PageRequest(needPage - 1, size)
    ensures status < 400 ==> AdminsLoaded(v, needPage, size, status, got, total) == View(got, PageInfo(needPage, size, total))
    ensures status >= 400 ==> AdminsLoaded(v, needPage, size, status, got, total) == v
    ensures MountRequest(View([], InitialPage)) == PageRequest(0, 10)
    ensures status < 400 ==> AdminsLoaded(View([], InitialPage), 1, 10, status, got, total).info.currPage == 1
    ensures needPage != 0 && status < 400 ==>
              ReloadRequest(AdminsLoaded(v, needPage, size, status, got, total).info) == PageRequestFor(needPage, size)
    ensures status >= 400 ==>
              ReloadRequest(AdminsLoaded(v, needPage, size, status, got, total).info) == ReloadRequest(v.info)
  {
    ReloadRepeatsLastLoad(v.info, needPage, size, total);
  }

  /** The screen's state fields. */
  class AdminsScreen {
    var admins: seq<Member>
    var pageInfo: PageInfo

    function State(): View
      reads this
    {
      View(admins, pageInfo)
    }

    constructor ()
      ensures State() == View([], InitialPage)
    {
      admins := [];
      pageInfo := InitialPage;
    }

    /**
     * `getAdminsInfo`: an accepted load shows the reply's admins; a refused
     * one throws (`threw`) and leaves the screen as it was.
     */
    method GetAdminsInfo(needPage: int, size: int, status: int, got: seq<Member>, total: int)
      returns (req: PageRequest, threw: bool)
      modifies this
      ensures req == PageRequestFor(needPage, size)
      ensures threw <==> status >= 400
      ensures State() == AdminsLoaded(old(State()), needPage, size, status, got, total)
    {
      req := PageRequest(needPage - 1, size);
      threw := status >= 400;
      if threw {
        return;
      }
      admins := got;
      pageInfo := pageInfo.(size := size, currPage := needPage, totalRecords := total);
    }

    /** The mount effect. */
    method Mount(status: int, got: seq<Member>, total: int) returns (req: PageRequest, threw: bool)
      modifies this
      ensures req == MountRequest(old(State()))
      ensures threw <==> status >= 400
      ensures State() == AdminsLoaded(old(State()), old(pageInfo.currPage) + 1, old(pageInfo.size), status, got, total)
    {
      req, threw := GetAdminsInfo(pageInfo.currPage + 1, pageInfo.size, status, got, total);
    }

    method HandleChangePage(page: int, pageSize: int, status: int, got: seq<Member>, total: int)
      returns (req: PageRequest, threw: bool)
      modifies this
      ensures req == PageRequestFor(page, pageSize)
      ensures threw <==> status >= 400
      ensures State() == AdminsLoaded(old(State()), page, pageSize, status, got, total)
    {
      req, threw := GetAdminsInfo(page, pageSize, status, got, total);
    }

    method HandleReload(status: int, got: seq<Member>, total: int) returns (req: PageRequest, threw: bool)
      modifies this
      ensures req == ReloadRequest(old(pageInfo))
      ensures threw <==> status >= 400
      ensures State() == AdminsLoaded(old(State()), ReloadPage(old(pageInfo.currPage)), old(pageInfo.size), status, got, total)
    {
      req, threw := GetAdminsInfo(ReloadPage(pageInfo.currPage), pageInfo.size, status, got, total);
    }
  }
}
