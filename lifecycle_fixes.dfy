/** The two places where zathura_page_new and zathura_page_free lose a
    page: each shown on a concrete plugin, next to the corrected
    operation, which releases every page it does not hand back. */
module LifecycleFixes {
  import opened Types
  import opened Pages

  /** A plugin whose function table is empty. */
  function NoFunctions(): Functions
  {
    Functions(None, None, None, None, None, None, None, None, None, None)
  }

  /** A plugin that has page_init (always succeeding) but no page_clear. */
  function InitOnly(): Functions
  {
    NoFunctions().(pageInit := Some((s: PageState) => InitAnswer(Ok, 0.0, 0.0, None)))
  }

  /** zathura_page_new as written, on a plugin without page_init: it
      reports NOT_IMPLEMENTED and returns NULL, and the page it allocated
      is never released. */
  method NewWithoutPageInitLeaks() returns (page: Page?, code: ErrorCode, ghost lost: Page?)
    ensures page == null && code == NotImplemented
    ensures lost != null && !lost.released
  {
    var document := new Document(NoFunctions());
    var error := new ErrorSlot(Ok);
    page, lost := PageNew(document, 0, error);
    code := error.code;
  }

  /** zathura_page_free as written, on a plugin without page_clear: it
      reports NOT_IMPLEMENTED and the page is never released. */
  method FreeWithoutPageClearLeaks() returns (page: Page, code: ErrorCode)
    ensures code == NotImplemented && !page.released
  {
    var document := new Document(InitOnly());
    var p: Page?;
    ghost var created: Page?;
    p, created := PageNew(document, 0, null);
    page := p;
    code := PageFree(page);
  }

  /** zathura_page_free corrected: same codes and hook calls as PageFree,
      but a non-NULL page is released on every path. */
  method PageFreeReleasing(page: Page?) returns (r: ErrorCode)
    requires Usable(page)
    modifies page, GetDocument(page)
    ensures page != null ==> page.released
    ensures page != null ==> page.State() == old(page.State()) && page.document == old(page.document)
    ensures page == null || page.document == null ==> r == InvalidArguments
    ensures page != null && page.document != null && page.document.functions.pageClear.None? ==>
              && r == NotImplemented
              && page.document.hookCalls == old(page.document.hookCalls)
    ensures page != null && page.document != null && page.document.functions.pageClear.Some? ==>
              && r == page.document.functions.pageClear.value(page.State(), page.data)
              && page.document.hookCalls == old(page.document.hookCalls) + [PageClear(page, page.data)]
  {
    if page == null {
      return InvalidArguments;
    }
    if page.document == null {
      page.released := true;
      return InvalidArguments;
    }
    var document := page.document;
    match document.functions.pageClear {
      case None =>
        r := NotImplemented;
      case Some(clear) =>
        r := clear(page.State(), page.data);
        document.hookCalls := document.hookCalls + [PageClear(page, page.data)];
    }
    page.released := true;
  }

  /** zathura_page_new corrected: when page_init is missing, the page is
      freed with g_free before NULL is returned (it has no plugin data, so
      page_clear is not called on it); every other path is unchanged, and
      a failing page_init still goes through PageFreeReleasing. So a page
      that is not returned has been released. */
  method PageNewReleasing(document: Document?, index: u32, error: ErrorSlot?)
    returns (page: Page?, ghost created: Page?)
    modifies document, error
    ensures page == null ==> created == null || created.released
    ensures page != null ==> page == created && fresh(page) && !page.released
    ensures document == null ==> page == null && created == null
    ensures document == null && error != null ==> error.code == InvalidArguments
    ensures document != null ==>
              && created != null && fresh(created)
              && created.index == index && created.document == document
              && !created.visible
    ensures document != null && document.functions.pageInit.None? ==>
              && page == null
              && (error != null ==> error.code == NotImplemented)
              && created.State() == Blank(index)
              && document.hookCalls == old(document.hookCalls)
    ensures document != null && document.functions.pageInit.Some? ==>
              var a := document.functions.pageInit.value(Blank(index));
              && created.State() == Initialized(index, a)
              && (page != null <==> a.code == Ok)
              && (a.code == Ok ==>
                    && document.hookCalls == old(document.hookCalls) + [PageInit(created)]
                    && (error != null ==> error.code == old(error.code)))
              && (a.code != Ok ==>
                    && (error != null ==> error.code == a.code)
                    && (document.functions.pageClear.None? ==>
                          document.hookCalls == old(document.hookCalls) + [PageInit(created)])
                    && (document.functions.pageClear.Some? ==>
                          document.hookCalls == old(document.hookCalls)
                            + [PageInit(created), PageClear(created, a.data)]))
  {
    if document == null {
      if error != null {
        error.code := InvalidArguments;
      }
      return null, null;
    }

    var p := new Page.Zeroed();
    p.index := index;
    p.visible := false;
    p.document := document;
    created := p;

    match document.functions.pageInit {
      case None =>
        if error != null {
          error.code := NotImplemented;
        }
        p.released := true;
        return null, created;
      case Some(init) =>
        var a := init(p.State());
        document.hookCalls := document.hookCalls + [PageInit(p)];
        p.width, p.height, p.data := a.width, a.height, a.data;
        if a.code == Ok {
          return p, created;
        }
        if error != null {
          error.code := a.code;
        }
        var _ := PageFreeReleasing(p);
        return null, created;
    }
  }
}
