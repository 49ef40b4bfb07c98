# zathura page object, modelled in Dafny

This project models the page object of the zathura document viewer
(`page.c`). A page is a small heap record: height, width, index, the
plugin's private data, a visibility flag and a back-reference to its
document. Pages are created and destroyed through the document plugin's
`page_init` and `page_clear` hooks. Null-guarded getters and setters act on
the record. Eight page operations forward to the plugin's function table
after the same checks, in the same order:

1. a NULL argument gives `INVALID_ARGUMENTS`, and the plugin is not called;
2. otherwise, a missing plugin function gives `NOT_IMPLEMENTED`;
3. otherwise, the plugin's result and error are passed back unchanged.

Files:

- `types.dfy` (module `Types`) holds the value types shared with plugins.
  These are the error codes, opaque pointers as `Handle`s, girara lists
  (identity plus element destructor), the rectangle, the page state a
  plugin sees and the plugin's function table. Each slot of the table is an
  `Option` of a Dafny function, and `None` is a NULL slot. The file also
  defines `Dispatched`, the outcome of a page operation:
  - `Rejected(code)`: the page object answered by itself and did not call the plugin;
  - `Delegated(answer)`: the plugin was called, and its answer is carried.

  The predicate `Precedence` states the three-step order above once, and
  all eight operations state it in their contracts.
- `pages.dfy` (module `Pages`) holds the `Page` class with the fields of
  `struct zathura_page_s`. `NULL` is a null `Page?`. The file has the
  getters (functions), the setters (methods with `modifies page`),
  `PageNew` and `PageFree`, the eight operations (functions of the page and
  its document's plugin) and `Deliver`. `Deliver` is the shared tail that
  writes `*error` only when `error` is non-NULL. A page freed with `g_free`
  has its ghost `released` flag set. Getters and setters require a page
  that is NULL or not yet released, because using a freed page is undefined
  in C. Each `Document` keeps a ghost log, `hookCalls`, of the lifecycle
  hooks called on its plugin. That log states "page_init is called exactly
  once" and "no plugin is consulted".
- `page_properties.dfy` (module `PageProperties`) holds the getter
  sentinels on a NULL page. It also has a reference definition of a page's
  state after any sequence of setter calls (each field holds the last value
  written to it). This definition is proved equal to applying the setters
  in order, by induction.
- `lifecycle_fixes.dfy` (module `LifecycleFixes`) holds the two leaks found
  in the lifecycle (see Findings). Each is shown on a concrete plugin, next
  to a corrected operation.

page.c itself shows that a page which is not handed back should be freed.
When page_init fails, the `error_free` block (page.c:59-63) passes the new
page to `zathura_page_free`. `zathura_page_free` frees a page even when it
rejects it for having no document (page.c:77-79). Two paths in the code
nevertheless lose the page:

- `zathura_page_new` jumps past `error_free` when `page_init` is missing
  (page.c:42-47), so the page it allocated is never freed;
- `zathura_page_free` returns before `g_free` when `page_clear` is missing
  (page.c:83-85), so the page is never freed.

`PageNew` and `PageFree` model the code as written. The corrected versions
sit beside them in `LifecycleFixes`.

## Model

| member | source | states |
|---|---|---|
| `Pages.Page.Zeroed` | page.c:34 | a freshly allocated page is all zeros: width and height 0, index 0, data NULL, not visible, no document |
| `Pages.PageNew` | page.c:23-68 | NULL document: returns NULL, writes INVALID_ARGUMENTS if `error` is non-NULL, allocates nothing and calls no hook. Otherwise: allocates one page with the given index and document, not visible. No page_init: returns NULL, writes NOT_IMPLEMENTED, leaves the page blank and unreleased, and calls no hook. page_init is called exactly once, on the blank page. If it returns OK, that page is returned and `*error` is untouched. If it returns any other code, NULL is returned, that exact code is written, and the page goes through zathura_page_free (page_clear runs and the page is released only if page_clear exists) |
| `Pages.PageFree` | page.c:70-92 | NULL page: INVALID_ARGUMENTS. NULL document: the page is released and INVALID_ARGUMENTS is returned. No page_clear: NOT_IMPLEMENTED, the page is not released and no hook is called. Otherwise: page_clear(page, page->data) is called once, its code is returned verbatim and the page is released. The page's fields are never changed |
| `Pages.GetDocument` | page.c:94-102 | NULL page: NULL; otherwise the page's document |
| `Pages.GetIndex` | page.c:104-112 | NULL page: 0; otherwise the stored index |
| `Pages.GetWidth` | page.c:114-122 | NULL page: -1; otherwise the stored width |
| `Pages.GetHeight` | page.c:134-142 | NULL page: -1; otherwise the stored height |
| `Pages.GetVisibility` | page.c:154-162 | NULL page: false; otherwise the stored visibility |
| `Pages.GetData` | page.c:174-182 | NULL page: NULL; otherwise the stored plugin data |
| `Pages.SetWidth` | page.c:124-132 | on a non-NULL page, changes only the width; the getter then returns the value set. On a NULL page, changes nothing |
| `Pages.SetHeight` | page.c:144-152 | on a non-NULL page, changes only the height; the getter then returns the value set. On a NULL page, changes nothing |
| `Pages.SetVisibility` | page.c:164-172 | on a non-NULL page, changes only the visibility; the getter then returns the value set. On a NULL page, changes nothing |
| `Pages.SetData` | page.c:184-192 | on a non-NULL page, changes only the private data; the getter then returns the value set. On a NULL page, changes nothing |
| `PageProperties.NullPageSentinels` | page.c:94-182 | getters on a NULL page answer width -1, height -1, index 0, document NULL, data NULL and visibility false |
| `PageProperties.LastWriteWins` | page.c:124-192 | after any sequence of setter calls, each settable field holds the last value written to it, or its old value if none was written; the index is unchanged |
| `PageProperties.SettersKeepIndex` | page.c:104-192 | no sequence of setter calls changes a page's index |
| `PageProperties.SettersCommute` | page.c:124-192 | setters of two different fields give the same page in either order |
| `Pages.SearchText` | page.c:194-213 | INVALID_ARGUMENTS, with no plugin call, exactly when the page, its document or the text is NULL. Otherwise NOT_IMPLEMENTED exactly when page_search_text is absent. Otherwise page_search_text(page, page->data, text) is called, and its list and error are returned unchanged |
| `Pages.LinksGet` | page.c:215-234 | INVALID_ARGUMENTS, with no plugin call, exactly when the page or its document is NULL. Otherwise NOT_IMPLEMENTED exactly when page_links_get is absent. Otherwise the plugin's list and error are returned unchanged |
| `Pages.LinksFree` | page.c:236-240 | ignores its list and returns `false`, which is OK |
| `Pages.FormFieldsGet` | page.c:242-261 | INVALID_ARGUMENTS, with no plugin call, exactly when the page or its document is NULL. Otherwise NOT_IMPLEMENTED exactly when page_form_fields_get is absent. Otherwise the plugin's list and error are returned unchanged |
| `Pages.FormFieldsFree` | page.c:263-267 | ignores its list and returns NOT_IMPLEMENTED |
| `Pages.ImagesGet` | page.c:269-288 | INVALID_ARGUMENTS, with no plugin call, exactly when the page or its document is NULL. Otherwise NOT_IMPLEMENTED exactly when page_images_get is absent. Otherwise the plugin's list and error are returned unchanged |
| `Pages.ImageGetCairo` | page.c:290-309 | INVALID_ARGUMENTS, with no plugin call, exactly when the page, its document or the image is NULL. Otherwise NOT_IMPLEMENTED exactly when page_image_get_cairo is absent. Otherwise the plugin's surface and error are returned unchanged |
| `Pages.GetText` | page.c:311-330 | INVALID_ARGUMENTS, with no plugin call, exactly when the page or its document is NULL; the rectangle is never checked. Otherwise NOT_IMPLEMENTED exactly when page_get_text is absent. Otherwise the plugin gets the rectangle unchanged, and its text and error are returned unchanged |
| `Pages.GetAnnotations` | page.c:332-356 | same order of checks. The plugin's error is returned unchanged. A NULL list stays NULL. A non-NULL list is the same list, with zathura_annotation_free installed as its element destructor |
| `Pages.Render` | page.c:358-371 | INVALID_ARGUMENTS, with no plugin call, exactly when the page, its document or the cairo context is NULL. Otherwise NOT_IMPLEMENTED exactly when page_render_cairo is absent. Otherwise the plugin's code is returned verbatim, with the printing flag passed through |
| `Pages.Deliver` | page.c:197-212 | the shared tail of the seven operations that take an `error` argument (search_text, links_get, form_fields_get, images_get, image_get_cairo, get_text, get_annotations; page.c:197-212 is the first of them). A rejection returns NULL and writes its code through `error`. A plugin call returns the plugin's pointer and leaves in `*error` what the plugin wrote there. Nothing is written when `error` is NULL |
| `LifecycleFixes.NewWithoutPageInitLeaks` | page.c:42-47 | with a plugin lacking page_init, zathura_page_new returns NULL and NOT_IMPLEMENTED, and the page it allocated is never released |
| `LifecycleFixes.FreeWithoutPageClearLeaks` | page.c:83-85 | with a plugin lacking page_clear, zathura_page_free returns NOT_IMPLEMENTED and the page is never released |
| `LifecycleFixes.PageFreeReleasing` | page.c:70-92 | the same codes and hook calls as zathura_page_free, but every non-NULL page ends up released |
| `LifecycleFixes.PageNewReleasing` | page.c:23-68 | the same results, error codes and hook calls as zathura_page_new, except that with no page_init the page is freed directly and no hook is called. A page that is not returned has been released; a returned page is fresh and live |

## Left out

- callbacks.c is not part of this model. It is GTK and girara glue. Its
  viewport callback is a stub that only submits page 0, and its
  page-intersection logic is commented out.
- Plugin implementations are not modelled. Each function-table slot is an
  uninterpreted Dafny function, so a hook's answer depends only on its
  arguments.
- `zathura_document_get_plugin` is modelled as a constant field of the
  document, `functions`.
- girara lists, `girara_list_set_free_function`, `zathura_annotation_free`,
  cairo surfaces and contexts, and glib allocation are not modelled. They
  are foreign code. Lists and pointers are opaque identities, and the
  allocation is the `Page.Zeroed` constructor.
- Width and height are `real`s. They are only stored and returned, so no
  floating-point semantics is modelled.
- Render threads and concurrency are not modelled. No code in page.c uses them.
- The error enumeration's own header is not part of this model. Error
  codes other than OK, NOT_IMPLEMENTED and INVALID_ARGUMENTS appear as
  `PluginError(n)`. `zathura_page_links_free` returns `false`, which
  converts to 0, taken to be `ZATHURA_ERROR_OK`, the enumeration's first
  member.
- Pages.PageNew: page_init is modelled as setting only width, height and
  private data on the new page (what format plugins set). A plugin that
  calls `zathura_page_set_visibility` inside page_init is not modelled.
- The eight operations give the plugin a snapshot of the page's fields. A
  plugin query that calls a page setter while it runs is not modelled.
- The lifecycle log `hookCalls` records only page_init and page_clear. For
  the eight operations, whether the plugin was called is told by the
  `Rejected`/`Delegated` outcome.

## Findings

| source | as written | input that shows it | evidently intended | confidence | as-written member | corrected member |
|---|---|---|---|---|---|---|
| page.c:42-47 | a missing page_init jumps to `error_ret`, skipping `error_free`, so the page allocated at line 34 is never released | a non-NULL document whose plugin has no page_init | free the page before returning NULL. The corrected member frees it directly, without calling page_clear on a page that page_init never saw | high; not executed | `LifecycleFixes.NewWithoutPageInitLeaks` | `LifecycleFixes.PageNewReleasing` |
| page.c:83-85 | a missing page_clear returns NOT_IMPLEMENTED before `g_free(page)`, so the page is never released | a page whose document's plugin has page_init but no page_clear | still release the page and report NOT_IMPLEMENTED | high; not executed | `LifecycleFixes.FreeWithoutPageClearLeaks` | `LifecycleFixes.PageFreeReleasing` |
