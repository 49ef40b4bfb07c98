/** The page object of zathura (page.c): a small mutable record, its
    create/destroy lifecycle through the plugin's page_init and page_clear
    hooks, null-guarded accessors, and eight operations that forward to the
    document's plugin after the same two checks. */
module Pages {
  import opened Types

  /** A hook call the page object made on a document's plugin. */
  datatype HookCall = PageInit(page: Page) | PageClear(page: Page, data: Option<Handle>)

  /** zathura_document_t, reduced to what page.c uses of it: the function
      table of its plugin (`zathura_document_get_plugin(document)->functions`).
      `hookCalls` records, in order, the lifecycle hooks the page object has
      invoked on that plugin. */
  class Document {
    const functions: Functions
    ghost var hookCalls: seq<HookCall>

    constructor (functions: Functions)
      ensures this.functions == functions && hookCalls == []
    {
      this.functions := functions;
      hookCalls := [];
    }
  }

  /** The `zathura_error_t*` out-parameter; a NULL one is a null ErrorSlot?. */
  class ErrorSlot {
    var code: ErrorCode

    constructor (code: ErrorCode)
      ensures this.code == code
    {
      this.code := code;
    }
  }

  /** struct zathura_page_s. `released` is true once the page's memory has
      been given back with g_free. */
  class Page {
    var height: real
    var width: real
    var index: u32
    var data: Option<Handle>
    var visible: bool
    var document: Document?
    ghost var released: bool

    /** The fields a plugin sees. */
    function State(): PageState
      reads this
    {
      PageState(height, width, index, data, visible)
    }

    /** g_malloc0: every field zero, NULL or false. */
    constructor Zeroed()
      ensures State() == PageState(0.0, 0.0, 0, None, false)
      ensures document == null && !released
    {
      height, width, index, data, visible := 0.0, 0.0, 0, None, false;
      document := null;
      released := false;
    }
  }

  /** A page pointer the caller may hand to page.c: NULL or not yet freed. */
  ghost predicate Usable(page: Page?)
    reads page
  {
    page == null || !page.released
  }

  /** The state a fresh page is in when page_init sees it. */
  function Blank(index: u32): (s: PageState)
    ensures s.index == index && s.data == None && !s.visible
  {
    PageState(0.0, 0.0, index, None, false)
  }

  /** The state page_init leaves a fresh page in. */
  function Initialized(index: u32, a: InitAnswer): (s: PageState)
    ensures s.index == index && !s.visible
    ensures s.width == a.width && s.height == a.height && s.data == a.data
  {
    Blank(index).(width := a.width, height := a.height, data := a.data)
  }

  // ---------------------------------------------------------------------
  // Accessors

  function GetDocument(page: Page?): (r: Document?)
    reads page
    requires Usable(page)
    ensures page == null ==> r == null
    ensures page != null ==> r == page.document
  {
    if page == null then null else page.document
  }

  function GetIndex(page: Page?): (r: u32)
    reads page
    requires Usable(page)
    ensures page == null ==> r == 0
    ensures page != null ==> r == page.index
  {
    if page == null then 0 else page.index
  }

  function GetWidth(page: Page?): (r: real)
    reads page
    requires Usable(page)
    ensures page == null ==> r == -1.0
    ensures page != null ==> r == page.width
  {
    if page == null then -1.0 else page.width
  }

  function GetHeight(page: Page?): (r: real)
    reads page
    requires Usable(page)
    ensures page == null ==> r == -1.0
    ensures page != null ==> r == page.height
  {
    if page == null then -1.0 else page.height
  }

  function GetVisibility(page: Page?): (r: bool)
    reads page
    requires Usable(page)
    ensures page == null ==> r == false
    ensures page != null ==> r == page.visible
  {
    if page == null then false else page.visible
  }

  function GetData(page: Page?): (r: Option<Handle>)
    reads page
    requires Usable(page)
    ensures page == null ==> r == None
    ensures page != null ==> r == page.data
  {
    if page == null then None else page.data
  }

  /** One setter call, as a change to the plugin-visible state. */
  datatype Setter =
    | WidthTo(width: real)
    | HeightTo(height: real)
    | VisibilityTo(visible: bool)
    | DataTo(data: Option<Handle>)

  /** What a setter does to a non-NULL page. */
  function Apply(s: PageState, op: Setter): (t: PageState)
    ensures t.index == s.index
  {
    match op
    case WidthTo(w) => s.(width := w)
    case HeightTo(h) => s.(height := h)
    case VisibilityTo(v) => s.(visible := v)
    case DataTo(d) => s.(data := d)
  }

  method SetWidth(page: Page?, width: real)
    requires Usable(page)
    modifies page
    ensures page != null ==> page.State() == Apply(old(page.State()), WidthTo(width))
    ensures page != null ==> page.document == old(page.document) && page.released == old(page.released)
    ensures GetWidth(page) == if page == null then -1.0 else width
  {
    if page == null {
      return;
    }
    page.width := width;
  }

  method SetHeight(page: Page?, height: real)
    requires Usable(page)
    modifies page
    ensures page != null ==> page.State() == Apply(old(page.State()), HeightTo(height))
    ensures page != null ==> page.document == old(page.document) && page.released == old(page.released)
    ensures GetHeight(page) == if page == null then -1.0 else height
  {
    if page == null {
      return;
    }
    page.height := height;
  }

  method SetVisibility(page: Page?, visibility: bool)
    requires Usable(page)
    modifies page
    ensures page != null ==> page.State() == Apply(old(page.State()), VisibilityTo(visibility))
    ensures page != null ==> page.document == old(page.document) && page.released == old(page.released)
    ensures GetVisibility(page) == (page != null && visibility)
  {
    if page == null {
      return;
    }
    page.visible := visibility;
  }

  method SetData(page: Page?, data: Option<Handle>)
    requires Usable(page)
    modifies page
    ensures page != null ==> page.State() == Apply(old(page.State()), DataTo(data))
    ensures page != null ==> page.document == old(page.document) && page.released == old(page.released)
    ensures GetData(page) == if page == null then None else data
  {
    if page == null {
      return;
    }
    page.data := data;
  }

  // ---------------------------------------------------------------------
  // Lifecycle

  /** zathura_page_free, as written: a page whose plugin has no page_clear
      is NOT released. */
  method PageFree(page: Page?) returns (r: ErrorCode)
    requires Usable(page)
    modifies page, GetDocument(page)
    ensures page == null ==> r == InvalidArguments
    ensures page != null ==> page.State() == old(page.State()) && page.document == old(page.document)
    ensures page != null && page.document == null ==> r == InvalidArguments && page.released
    ensures page != null && page.document != null && page.document.functions.pageClear.None? ==>
              && r == NotImplemented
              && !page.released
              && page.document.hookCalls == old(page.document.hookCalls)
    ensures page != null && page.document != null && page.document.functions.pageClear.Some? ==>
              && r == page.document.functions.pageClear.value(page.State(), page.data)
              && page.released
              && page.document.hookCalls == old(page.document.hookCalls) + [PageClear(page, page.data)]
  {
    if page == null {
      return InvalidArguments;
    }
    if page.document == null {
      page.released := true;
      return InvalidArguments;
    }
    var document := page.document;
    match document.functions.pageClear
    case None =>
      return NotImplemented;
    case Some(clear) =>
      r := clear(page.State(), page.data);
      document.hookCalls := document.hookCalls + [PageClear(page, page.data)];
      page.released := true;
  }

  /** zathura_page_new, as written. `created` names the page the call
      created, if any, whether or not it is returned. */
  method PageNew(document: Document?, index: u32, error: ErrorSlot?)
    returns (page: Page?, ghost created: Page?)
    modifies document, error
    // a NULL document: nothing created, no plugin consulted
    ensures document == null ==> page == null && created == null
    ensures document == null && error != null ==> error.code == InvalidArguments
    // otherwise exactly one page is created, holding the index and document
    ensures document != null ==>
              && created != null && fresh(created)
              && created.index == index && created.document == document
              && !created.visible
    // no page_init: NOT_IMPLEMENTED, and the created page is never released
    ensures document != null && document.functions.pageInit.None? ==>
              && page == null
              && (error != null ==> error.code == NotImplemented)
              && created.State() == Blank(index)
              && !created.released
              && document.hookCalls == old(document.hookCalls)
    // page_init called once, on the blank page
    ensures document != null && document.functions.pageInit.Some? ==>
              var a := document.functions.pageInit.value(Blank(index));
              && created.State() == Initialized(index, a)
              && (a.code == Ok ==>
                    && page == created && !page.released
                    && document.hookCalls == old(document.hookCalls) + [PageInit(page)]
                    && (error != null ==> error.code == old(error.code)))
              && (a.code != Ok ==>
                    && page == null
                    && (error != null ==> error.code == a.code)
                    && (document.functions.pageClear.None? ==>
                          && !created.released
                          && document.hookCalls == old(document.hookCalls) + [PageInit(created)])
                    && (document.functions.pageClear.Some? ==>
                          && created.released
                          && document.hookCalls == old(document.hookCalls)
                               + [PageInit(created), PageClear(created, a.data)]))
  {
    if document == null {
      if error != null {
        error.code := InvalidArguments;
      }
      return null, null;
    }

    var p := new Page.Zeroed();
    p.index := index;
    p.visible := false;
    p.document := document;
    created := p;

    match document.functions.pageInit
    case None =>
      if error != null {
        error.code := NotImplemented;
      }
      return null, created;
    case Some(init) =>
      var a := init(p.State());
      document.hookCalls := document.hookCalls + [PageInit(p)];
      p.width, p.height, p.data := a.width, a.height, a.data;
      if a.code != Ok {
        if error != null {
          error.code := a.code;
        }
        var _ := PageFree(p);
        return null, created;
      }
      return p, created;
  }

  // ---------------------------------------------------------------------
  // Operations forwarded to the plugin

  /** A page the plugin can be asked about: non-NULL, with a document. */
  predicate Attached(page: Page?)
    reads page
  {
    page != null && page.document != null
  }

  function SearchText(page: Page?, text: Option<string>): (r: Dispatched<Answer<List>>)
    reads page
    requires Usable(page)
    ensures Precedence(Attached(page) && text.Some?,
                       if page != null && page.document != null then page.document.functions.pageSearchText else None, r)
    ensures r.Delegated? ==>
              && page != null && page.document != null && text.Some?
              && page.document.functions.pageSearchText.Some?
              && r.answer == page.document.functions.pageSearchText.value(page.State(), page.data, text.value)
  {
    if page == null || page.document == null || text.None? then Rejected(InvalidArguments)
    else match page.document.functions.pageSearchText
      case None => Rejected(NotImplemented)
      case Some(hook) => Delegated(hook(page.State(), page.data, text.value))
  }

  function LinksGet(page: Page?): (r: Dispatched<Answer<List>>)
    reads page
    requires Usable(page)
    ensures Precedence(Attached(page),
                       if page != null && page.document != null then page.document.functions.pageLinksGet else None, r)
    ensures r.Delegated? ==>
              && page != null && page.document != null
              && page.document.functions.pageLinksGet.Some?
              && r.answer == page.document.functions.pageLinksGet.value(page.State(), page.data)
  {
    if page == null || page.document == null then Rejected(InvalidArguments)
    else match page.document.functions.pageLinksGet
      case None => Rejected(NotImplemented)
      case Some(hook) => Delegated(hook(page.State(), page.data))
  }

  /** zathura_page_links_free: ignores the list and returns `false`, which
      as a zathura_error_t is 0, ZATHURA_ERROR_OK. */
  function LinksFree(list: Option<List>): (r: ErrorCode)
    ensures r == Ok
  {
    Ok
  }

  function FormFieldsGet(page: Page?): (r: Dispatched<Answer<List>>)
    reads page
    requires Usable(page)
    ensures Precedence(Attached(page),
                       if page != null && page.document != null then page.document.functions.pageFormFieldsGet else None, r)
    ensures r.Delegated? ==>
              && page != null && page.document != null
              && page.document.functions.pageFormFieldsGet.Some?
              && r.answer == page.document.functions.pageFormFieldsGet.value(page.State(), page.data)
  {
    if page == null || page.document == null then Rejected(InvalidArguments)
    else match page.document.functions.pageFormFieldsGet
      case None => Rejected(NotImplemented)
      case Some(hook) => Delegated(hook(page.State(), page.data))
  }

  /** zathura_page_form_fields_free: ignores the list. */
  function FormFieldsFree(list: Option<List>): (r: ErrorCode)
    ensures r == NotImplemented
  {
    NotImplemented
  }

  function ImagesGet(page: Page?): (r: Dispatched<Answer<List>>)
    reads page
    requires Usable(page)
    ensures Precedence(Attached(page),
                       if page != null && page.document != null then page.document.functions.pageImagesGet else None, r)
    ensures r.Delegated? ==>
              && page != null && page.document != null
              && page.document.functions.pageImagesGet.Some?
              && r.answer == page.document.functions.pageImagesGet.value(page.State(), page.data)
  {
    if page == null || page.document == null then Rejected(InvalidArguments)
    else match page.document.functions.pageImagesGet
      case None => Rejected(NotImplemented)
      case Some(hook) => Delegated(hook(page.State(), page.data))
  }

  function ImageGetCairo(page: Page?, image: Option<Handle>): (r: Dispatched<Answer<Handle>>)
    reads page
    requires Usable(page)
    ensures Precedence(Attached(page) && image.Some?,
                       if page != null && page.document != null then page.document.functions.pageImageGetCairo else None, r)
    ensures r.Delegated? ==>
              && page != null && page.document != null && image.Some?
              && page.document.functions.pageImageGetCairo.Some?
              && r.answer == page.document.functions.pageImageGetCairo.value(page.State(), page.data, image.value)
  {
    if page == null || page.document == null || image.None? then Rejected(InvalidArguments)
    else match page.document.functions.pageImageGetCairo
      case None => Rejected(NotImplemented)
      case Some(hook) => Delegated(hook(page.State(), page.data, image.value))
  }

  /** The rectangle is a value and is never checked. */
  function GetText(page: Page?, rectangle: Rectangle): (r: Dispatched<Answer<string>>)
    reads page
    requires Usable(page)
    ensures Precedence(Attached(page),
                       if page != null && page.document != null then page.document.functions.pageGetText else None, r)
    ensures r.Delegated? ==>
              && page != null && page.document != null
              && page.document.functions.pageGetText.Some?
              && r.answer == page.document.functions.pageGetText.value(page.State(), page.data, rectangle)
  {
    if page == null || page.document == null then Rejected(InvalidArguments)
    else match page.document.functions.pageGetText
      case None => Rejected(NotImplemented)
      case Some(hook) => Delegated(hook(page.State(), page.data, rectangle))
  }

  /** Gives a non-NULL annotation list zathura_annotation_free as its
      element destructor. */
  function WithAnnotationFree(result: Option<List>): Option<List>
  {
    match result
    case None => None
    case Some(list) => Some(list.(freeFunction := Some(AnnotationFree)))
  }

  function GetAnnotations(page: Page?): (r: Dispatched<Answer<List>>)
    reads page
    requires Usable(page)
    ensures Precedence(Attached(page),
                       if page != null && page.document != null then page.document.functions.pageGetAnnotations else None, r)
    ensures r.Delegated? ==>
              && page != null && page.document != null
              && page.document.functions.pageGetAnnotations.Some?
              && var a := page.document.functions.pageGetAnnotations.value(page.State(), page.data);
              && r.answer.error == a.error
              && (a.result.None? ==> r.answer.result.None?)
              && (a.result.Some? ==>
                    && r.answer.result.Some?
                    && r.answer.result.value.address == a.result.value.address
                    && r.answer.result.value.freeFunction == Some(AnnotationFree))
  {
    if page == null || page.document == null then Rejected(InvalidArguments)
    else match page.document.functions.pageGetAnnotations
      case None => Rejected(NotImplemented)
      case Some(hook) =>
        var a := hook(page.State(), page.data);
        Delegated(a.(result := WithAnnotationFree(a.result)))
  }

  /** zathura_page_render has no `error` argument: the code it returns is
      the rejection code or the plugin's own, carried either way. */
  function Render(page: Page?, cairo: Option<Handle>, printing: bool): (r: Dispatched<ErrorCode>)
    reads page
    requires Usable(page)
    ensures Precedence(Attached(page) && cairo.Some?,
                       if page != null && page.document != null then page.document.functions.pageRenderCairo else None, r)
    ensures r.Delegated? ==>
              && page != null && page.document != null && cairo.Some?
              && page.document.functions.pageRenderCairo.Some?
              && r.answer == page.document.functions.pageRenderCairo.value(page.State(), page.data, cairo.value, printing)
  {
    if page == null || page.document == null || cairo.None? then Rejected(InvalidArguments)
    else match page.document.functions.pageRenderCairo
      case None => Rejected(NotImplemented)
      case Some(hook) => Delegated(hook(page.State(), page.data, cairo.value, printing))
  }

  /** The tail shared by the seven operations with an `error` argument:
      return the result pointer and write the code through `error` only
      when `error` is non-NULL. A rejection writes its own code; a plugin
      call leaves in `*error` whatever the plugin wrote there. */
  method Deliver<T>(d: Dispatched<Answer<T>>, error: ErrorSlot?) returns (result: Option<T>)
    modifies error
    ensures d.Rejected? ==> result == None
    ensures d.Rejected? && error != null ==> error.code == d.code
    ensures d.Delegated? ==> result == d.answer.result
    ensures d.Delegated? && error != null ==>
              error.code == if d.answer.error.Some? then d.answer.error.value else old(error.code)
  {
    match d
    case Rejected(code) =>
      if error != null {
        error.code := code;
      }
      return None;
    case Delegated(a) =>
      if error != null && a.error.Some? {
        error.code := a.error.value;
      }
      return a.result;
  }
}
