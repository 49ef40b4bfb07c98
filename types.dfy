/** Values exchanged between zathura's page object and a document-format
    plugin: the error enumeration, opaque pointers, the plugin's function
    table, and the two-way outcome of a dispatched page operation. */
module Types {

  datatype Option<+T> = None | Some(value: T)

  /** C `unsigned int`, the type of a page's index. */
  newtype u32 = x: int | 0 <= x < 0x1_0000_0000

  /** zathura_error_t as page.c uses it. The page object itself produces
      only the first three; every other code comes from a plugin and is
      handed on without being looked at. */
  datatype ErrorCode =
    | Ok
    | NotImplemented
    | InvalidArguments
    | PluginError(code: nat)

  /** An opaque non-NULL pointer (`void*` plugin data, `zathura_image_t*`,
      `cairo_t*`, `cairo_surface_t*`): only its identity is observable here. */
  datatype Handle = Handle(address: nat)

  /** The element destructor installed on a girara list. */
  datatype FreeFunction = AnnotationFree | OtherFree(address: nat)

  /** A non-NULL `girara_list_t*`: its identity and its element destructor. */
  datatype List = List(address: nat, freeFunction: Option<FreeFunction>)

  /** zathura_rectangle_t, passed by value. */
  datatype Rectangle = Rectangle(x1: real, y1: real, x2: real, y2: real)

  /** The fields of a page that a plugin can observe (the `zathura_page_t*`
      it receives, read through the page getters). */
  datatype PageState = PageState(height: real, width: real, index: u32, data: Option<Handle>, visible: bool)

  /** What a plugin query hands back: the returned pointer (None is NULL) and
      the code it wrote through the `error` argument, if it wrote one. */
  datatype Answer<T> = Answer(result: Option<T>, error: Option<ErrorCode>)

  /** What `page_init(page)` does: the code it returns and the width, height
      and private data it leaves in the page through the setters. */
  datatype InitAnswer = InitAnswer(code: ErrorCode, width: real, height: real, data: Option<Handle>)

  /** The plugin's function table, `plugin->functions`; None is a NULL slot. */
  datatype Functions = Functions(
    pageInit: Option<PageState -> InitAnswer>,
    pageClear: Option<(PageState, Option<Handle>) -> ErrorCode>,
    pageSearchText: Option<(PageState, Option<Handle>, string) -> Answer<List>>,
    pageLinksGet: Option<(PageState, Option<Handle>) -> Answer<List>>,
    pageFormFieldsGet: Option<(PageState, Option<Handle>) -> Answer<List>>,
    pageImagesGet: Option<(PageState, Option<Handle>) -> Answer<List>>,
    pageImageGetCairo: Option<(PageState, Option<Handle>, Handle) -> Answer<Handle>>,
    pageGetText: Option<(PageState, Option<Handle>, Rectangle) -> Answer<string>>,
    pageGetAnnotations: Option<(PageState, Option<Handle>) -> Answer<List>>,
    pageRenderCairo: Option<(PageState, Option<Handle>, Handle, bool) -> ErrorCode>)

  /** The outcome of a page operation: either the page object answered by
      itself with an error code and never called the plugin (Rejected), or
      it called the plugin function and carries its answer (Delegated). */
  datatype Dispatched<A> = Rejected(code: ErrorCode) | Delegated(answer: A)

  /** The order every page operation checks things in: bad arguments first,
      then a missing plugin function, and only then a call to the plugin. */
  ghost predicate Precedence<H, A>(argumentsValid: bool, hook: Option<H>, r: Dispatched<A>)
  {
    && (r == Rejected(InvalidArguments) <==> !argumentsValid)
    && (r == Rejected(NotImplemented) <==> argumentsValid && hook.None?)
    && (r.Delegated? <==> argumentsValid && hook.Some?)
  }
}
