/**
 * Page bookkeeping shared by the paged member and word tables: the table
 * shows 1-based pages, the back end counts pages from 0.
 */
module Paging {

  /** The page shown, the page size and the total the server reported. */
  datatype PageInfo = PageInfo(currPage: int, size: int, totalRecords: int)

  /** Nothing loaded yet: page 0, ten rows, no total. */
  const InitialPage := PageInfo(0, 10, 0)

  /** A request for a 0-based backend page. */
  datatype PageRequest = PageRequest(page: int, size: int)

  /** Showing table page `needPage` asks for backend page `needPage - 1`. */
  function PageRequestFor(needPage: int, size: int): PageRequest
  {
    PageRequest(needPage - 1, size)
  }

  /** The bookkeeping after a page arrives: the page asked for, its size and the reported total. */
  function PageLoaded(info: PageInfo, needPage: int, size: int, total: int): PageInfo
  {
    info.(currPage := needPage, size := size, totalRecords := total)
  }

  /** `pageInfo.currPage || 1`: the shown page, or page 1 before any page was shown. */
  function ReloadPage(currPage: int): int
  {
    if currPage != 0 then currPage else 1
  }

  /** The request a reload sends. */
  function ReloadRequest(info: PageInfo): PageRequest
  {
    PageRequestFor(ReloadPage(info.currPage), info.size)
  }

  /**
   * A reload asks again for the page last loaded, with the same size, and
   * before any load it asks for the first page; it never asks for a
   * negative backend page while the shown page is not negative.
   */
  lemma ReloadRepeatsLastLoad(info: PageInfo, needPage: int, size: int, total: int)
    ensures needPage != 0 ==> ReloadRequest(PageLoaded(info, needPage, size, total)) == PageRequestFor(needPage, size)
    ensures ReloadRequest(InitialPage) == PageRequest(0, 10)
    ensures info.currPage >= 0 ==> ReloadRequest(info).page >= 0
    ensures ReloadRequest(info).size == info.size
  {
  }
}
