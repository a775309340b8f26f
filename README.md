# siempresofterp — a verified model of the form and table logic

siempresofterp is a React front end for an ERP system. It has screens for articles, article series (serial and lot numbers), warehouses and sales commissions. Most of it is JSX layout. This project models the small amount of logic underneath the screens and proves what that logic does:

- **Sidebar search** (`menu_filter.dfy`). The recursive filter over the menu tree keeps an entry when its title contains the search term, ignoring case, or when one of its descendants survives. It replaces each kept entry's submenu with the filtered one.
- **Article-series search** (`article_series.dfy`). Five search inputs are combined with AND over the fixed mock list. Warehouse and series use case-insensitive substring tests, the article input matches code or name, and status must be exactly equal. The page class keeps the inputs and the displayed result.
- **Pagination** (`paging.dfy`, `articles_page.dfy`). The page count is `ceil(n / perPage)`, and the shown rows are a slice window. The page links run 1 to the page count. Previous and next are clamped, and a new page size or a search goes back to page 1. The article page class also holds which editor is open and the search-filter record.
- **Article editors** (`article_record.dfy`, `edit_article_form.dfy`, `article_form.dfy`). Articles are open records, modelled as maps from field name to value. Each editor has a default draft that is replaced when the `article` prop changes, and a single-field change handler. The full editor refuses to save a draft with a falsy code or description, while the simple editor saves without any check. Both have read-only rules by mode.
- **Article-series editors** (`edit_article_series.dfy`). In the dialog, every change handler does nothing in view mode. The dialog also has a title for each mode and a submit that only shows a notice and closes. The stand-alone page defaults its mode to "create", has an id that can be edited only when creating, and ends both of its buttons on the series list.
- **Warehouse validation** (`warehouse.dfy`). The zod schema is modelled as a predicate over the 12-field record. The copy inside the form file is proved to accept exactly the same records, and the inputs' `maxLength` values are proved equal to the schema's maxima. The form's submit dispatch is modelled too.
- **Commission form** (`commission.dfy`). It has setters for single fields, toggles for the tax flags, and inputs that can be edited only while their flag is on.

Strings are `seq<char>`. `toLowerCase` is modelled on ASCII letters, and `includes` is a search for a contiguous occurrence (`strings.dfy`). React state owners become classes whose fields are the `useState` values and whose methods are the handlers. Toasts and navigation become outcome values that the methods return.

## Model

| member | source | states |
|---|---|---|
| Strings.LowerChar | src/components/sidebar/MenuFilter.tsx:10 | lowering maps `A`–`Z` to `a`–`z` (code point + 32), leaves every other character alone, and never yields an upper-case ASCII letter |
| Strings.Lower | src/pages/ArticleSeries.tsx:28 | `toLowerCase` keeps the length and lowers each character in place |
| Strings.IncludesIffOccurrence | src/components/sidebar/MenuFilter.tsx:10 | `includes(s, t)` holds exactly when `t` occurs as a contiguous run of `s` at some index |
| Strings.MissingCharExcludes | src/pages/ArticleSeries.tsx:31-32 | a text lacking some character of the term does not include the term |
| Strings.LowerMissing | src/pages/ArticleSeries.tsx:31-32 | a character that is absent from `s` in both cases is absent from `s.toLowerCase()` |
| MenuFilter.FilterMenuItems | src/components/sidebar/MenuFilter.tsx:4-30 | an empty term returns the list unchanged; otherwise the result is an order-preserving subsequence of the input (matched by title and path), so it is never longer |
| MenuFilter.FilterList | src/components/sidebar/MenuFilter.tsx:7-29 | the `map`/`filter(Boolean)` pipeline keeps an order-preserving subsequence, and each kept entry's title matches or its filtered submenu is non-empty |
| MenuFilter.FilterItem | src/components/sidebar/MenuFilter.tsx:8-28 | an entry is kept if and only if its title matches or its filtered submenu is non-empty; a kept entry keeps its title and path |
| MenuFilter.MatchingEntryKept | src/components/sidebar/MenuFilter.tsx:18-24 | every entry of the list whose title matches, or whose filtered submenu is non-empty, is in the filtered list carrying its filtered submenu |
| MenuFilter.EmptyTermIsIdentity | src/components/sidebar/MenuFilter.tsx:5 | filtering with `""` returns the input |
| MenuFilter.LeafKeptIffTitleMatches | src/components/sidebar/MenuFilter.tsx:13-24 | an entry with no submenu is kept exactly when its title matches, and it is then kept unchanged |
| MenuFilter.KeptItemCarriesFilteredSubmenu | src/components/sidebar/MenuFilter.tsx:14-27 | a kept entry carries the filtered submenu in place of its own; a non-matching entry with no submenu, or whose filtered submenu is empty, is dropped |
| MenuFilter.FilterListMembers | src/components/sidebar/MenuFilter.tsx:7-29 | an entry is in the result exactly when the `map` callback returns it for some input entry |
| MenuFilter.FilterListIsPruned | src/components/sidebar/MenuFilter.tsx:7-29 | at every depth of the result, every entry matches or has a non-empty submenu; in particular every leaf matches |
| MenuFilter.FilterItemIsPruned | src/components/sidebar/MenuFilter.tsx:14-23 | a kept entry is pruned at every depth of its submenu |
| MenuFilter.PrunedIsFixpoint | src/components/sidebar/MenuFilter.tsx:7-29 | the filter returns a pruned list unchanged |
| MenuFilter.PrunedItemIsKept | src/components/sidebar/MenuFilter.tsx:8-28 | the callback keeps a pruned entry unchanged |
| MenuFilter.FilterIdempotent | src/components/sidebar/MenuFilter.tsx:4-30 | filtering the result again with the same term gives the same tree |
| Paging.TotalPages | src/pages/Articles.tsx:89 | the page count is the ceiling of `n / perPage`: enough pages for all rows, the last one non-empty, and 0 pages exactly when there are no rows |
| Paging.PageLinks | src/components/article/ArticlesTable.tsx:54 | the page-link list is exactly `[1, 2, …, totalPages]` |
| Paging.PageWindowIsRun | src/pages/Articles.tsx:92-94 | for page ≥ 1 the shown rows are the contiguous run from `(page-1)*perPage` to `page*perPage`, truncated at the list end, so there are at most `perPage` rows |
| Paging.PageSizes | src/pages/Articles.tsx:89-94 | every page before the last shows exactly `perPage` rows, and the last shows the remainder |
| Paging.PagesArePrefix | src/pages/Articles.tsx:92-94 | pages 1 to `c`, laid end to end, are the first `c*perPage` rows |
| Paging.AllPagesCoverList | src/pages/Articles.tsx:89-94 | all pages together list every row exactly once, in order |
| Paging.NavigationClamps | src/components/article/ArticlesTable.tsx:133-153 | previous never goes below 1 and does nothing on page 1 (where it is disabled); next never exceeds the page count and does nothing on the last page (where it is disabled) |
| Paging.NextOnEmptyList | src/pages/Articles.tsx:603-604 | with no rows the page count is 0, so next stays enabled on page 1 and moves to page 0, whose window is empty |
| Paging.FirstPageIsPrefix | src/components/article/ArticlesTable.tsx:111-115 | page 1 under any offered page size is the first `perPage` rows, or the whole list when it is shorter |
| ArticleRecord.SetField | src/pages/Articles.tsx:130-135 | `{ ...record, [field]: value }` sets that field and leaves every other field as it was |
| ArticleRecord.ResetDraft | src/components/EditArticleForm.tsx:43-63 | the `[article]` effect of both editors (also src/components/ArticleForm.tsx:52-71): the draft becomes the given article, or the editor's blank draft when the prop is null |
| ArticleRecord.SetFieldOverwrites | src/components/EditArticleForm.tsx:65-67 | setting a field twice keeps only the second value |
| ArticleRecord.SetFieldCommutes | src/components/EditArticleForm.tsx:65-67 | setting two different fields gives the same record in either order |
| ArticlesPage.ArticleData | src/pages/Articles.tsx:38-56 | the page's fixed list holds two articles |
| ArticlesPage.InitialFilters | src/pages/Articles.tsx:69-85 | every text filter starts empty and `hasStock` starts false |
| ArticlesPage.ArticlesPage.constructor | src/pages/Articles.tsx:60-87 | the editor is closed in mode "new" with nothing selected, the page is 1, the page size is 5, and the filters are the initial ones |
| ArticlesPage.ArticlesPage.HandleNewArticle | src/pages/Articles.tsx:102-106 | nothing is selected, the mode is "new" and the editor is shown; the paging and filters are untouched |
| ArticlesPage.ArticlesPage.HandleEditArticle | src/pages/Articles.tsx:108-112 | that article is selected, the mode is "edit" and the editor is shown |
| ArticlesPage.ArticlesPage.HandleViewArticle | src/pages/Articles.tsx:114-118 | that article is selected, the mode is "view" and the editor is shown |
| ArticlesPage.ArticlesPage.HandleSaveArticle | src/pages/Articles.tsx:120-124 | the editor is hidden and nothing else changes, including the article list |
| ArticlesPage.ArticlesPage.HandleCloseForm | src/pages/Articles.tsx:126-128 | the editor is hidden and nothing else changes |
| ArticlesPage.ArticlesPage.HandleFilterChange | src/pages/Articles.tsx:130-135 | exactly the named filter changes |
| ArticlesPage.ArticlesPage.HandleSearch | src/pages/Articles.tsx:137-142 | search only sets the page to 1; the filters are not applied to the list |
| ArticlesPage.ArticlesPage.HandlePerPageChange | src/pages/Articles.tsx:562-566 | the page size becomes the chosen offered size, the page becomes 1 whatever it was, and the table shows the first `perPage` articles |
| ArticlesPage.ArticlesPage.HandlePrevious | src/pages/Articles.tsx:584 | the page becomes `max(page - 1, 1)` |
| ArticlesPage.ArticlesPage.HandleNext | src/pages/Articles.tsx:603 | the page becomes `min(page + 1, totalPages)` |
| ArticlesPage.ArticlesPage.HandlePageLink | src/pages/Articles.tsx:590-594 | a numbered link sets that page, which lies between 1 and the page count |
| ArticlesPage.InitialPageShowsAll | src/pages/Articles.tsx:87-94 | with two articles and five per page there is one page, and it shows both articles |
| EditArticleForm.DefaultDraft | src/components/EditArticleForm.tsx:27-41 | the blank draft has status "Activo", `hasStock` false and every other field empty, so its code and description are falsy |
| EditArticleForm.Submit | src/components/EditArticleForm.tsx:69-85 | the draft is refused exactly when its code or description is falsy; otherwise the draft itself goes to `onSave`, with the title "Artículo Creado" in "new" mode and "Artículo Actualizado" otherwise |
| EditArticleForm.EditArticleForm.constructor | src/components/EditArticleForm.tsx:23-63 | after mounting, the draft is the given article or the blank draft, as the `[article]` effect picks |
| EditArticleForm.EditArticleForm.ArticleChanged | src/components/EditArticleForm.tsx:43-63 | a new `article` prop replaces the draft |
| EditArticleForm.EditArticleForm.HandleChange | src/components/EditArticleForm.tsx:65-67 | exactly that field of the draft changes |
| EditArticleForm.EditArticleForm.HandleSubmit | src/components/EditArticleForm.tsx:69-85 | the early-return guard gives the outcome `Submit` describes, and the draft is unchanged |
| EditArticleForm.ReadOnlyRules | src/components/EditArticleForm.tsx:116 | everything is read-only exactly in "view" mode, the code is writable only in "new" mode, and the save button exists only outside "view" mode |
| EditArticleForm.BlankDraftRejected | src/components/EditArticleForm.tsx:71-78 | a blank draft is refused in every mode |
| EditArticleForm.CreateScenario | src/components/EditArticleForm.tsx:65-85 | a blank draft with a code and a description typed in is saved with exactly those values, under the "created" title |
| EditArticleForm.ClearedCodeRejected | src/components/EditArticleForm.tsx:71-78 | clearing the code of any draft blocks saving it |
| ArticleForm.DefaultDraft | src/components/ArticleForm.tsx:37-50 | the blank draft has status "Activo", `hasStock` false, every other field empty, and no `categoryAccount` |
| ArticleForm.ArticleForm.constructor | src/components/ArticleForm.tsx:36-71 | after mounting, the draft is the given article or the blank draft, as the `[article]` effect picks |
| ArticleForm.ArticleForm.ArticleChanged | src/components/ArticleForm.tsx:52-71 | a new `article` prop replaces the draft |
| ArticleForm.ArticleForm.HandleChange | src/components/ArticleForm.tsx:73-75 | exactly that field of the draft changes |
| ArticleForm.ArticleForm.Save | src/components/ArticleForm.tsx:349-353 | outside view mode, save passes the draft on as it stands, with no check |
| ArticleSeriesTypes.Set | src/pages/EditArticleSeries.tsx:40-43 | `{ ...prev, [field]: value }` sets that field and leaves every other field as it was |
| ArticleSeriesTypes.MockArticleSeries | src/types/articleSeries.ts:52-86 | the mock list holds three series, each with the required fields |
| ArticleSeriesSearch.Filter | src/pages/ArticleSeries.tsx:26-44 | the result is no longer than the list, and every record in it is in the list and passes all five tests |
| ArticleSeriesSearch.FilterMembership | src/pages/ArticleSeries.tsx:26-43 | a record is in the result exactly when it is in the list and passes the AND of the five tests |
| ArticleSeriesSearch.FilterPreservesOrder | src/pages/ArticleSeries.tsx:26-44 | the result is a subsequence of the list, in the list's order |
| ArticleSeriesSearch.EmptyCriteriaKeepAll | src/pages/ArticleSeries.tsx:26-43 | with all five inputs empty, the result is the whole list |
| ArticleSeriesSearch.AbsentFieldFails | src/pages/ArticleSeries.tsx:27-41 | a record without a field fails any non-empty criterion on that field; the article criterion fails when both code and name are absent |
| ArticleSeriesSearch.StatusInactivoFindsSeriesThree | src/pages/ArticleSeries.tsx:40-41 | status "Inactivo" finds only series 3 of the mock list |
| ArticleSeriesSearch.StatusIsCaseSensitive | src/pages/ArticleSeries.tsx:40-41 | status "inactivo" finds nothing, because status is compared exactly |
| ArticleSeriesSearch.ArticleLapFindsSeriesOne | src/pages/ArticleSeries.tsx:30-32 | article "lap" matches the name "Laptop…" ignoring case and finds only series 1 |
| ArticleSeriesPage.ArticleSeriesPage.constructor | src/pages/ArticleSeries.tsx:18-23 | the list starts as the whole mock list, with every input empty |
| ArticleSeriesPage.ArticleSeriesPage.SetCriteria | src/pages/ArticleSeries.tsx:19-23 | typing into the inputs changes only the criteria |
| ArticleSeriesPage.ArticleSeriesPage.HandleSearch | src/pages/ArticleSeries.tsx:25-47 | the shown list becomes the full mock list filtered by the current inputs, never a filter of the previous result |
| EditArticleSeriesDialog.DraftFor | src/components/ArticleSeries/EditArticleSeries.tsx:24-32 | the draft is the given series, or exactly `{status: "Activo"}` |
| EditArticleSeriesDialog.GuardedSet | src/components/ArticleSeries/EditArticleSeries.tsx:34-51 | in view mode the draft is unchanged; otherwise exactly the named field takes the value |
| EditArticleSeriesDialog.DialogTitle | src/components/ArticleSeries/EditArticleSeries.tsx:67-78 | create, edit and view get three fixed titles, and any other mode gets "Serie" |
| EditArticleSeriesDialog.EditArticleSeries.constructor | src/components/ArticleSeries/EditArticleSeries.tsx:21-32 | after mounting, the draft is the one the `[articleSeries]` effect picks |
| EditArticleSeriesDialog.EditArticleSeries.SeriesChanged | src/components/ArticleSeries/EditArticleSeries.tsx:24-32 | a new series prop replaces the draft |
| EditArticleSeriesDialog.EditArticleSeries.HandleChange | src/components/ArticleSeries/EditArticleSeries.tsx:34-39 | returns early in view mode; otherwise sets exactly the named field |
| EditArticleSeriesDialog.EditArticleSeries.HandleSelectChange | src/components/ArticleSeries/EditArticleSeries.tsx:41-45 | returns early in view mode; otherwise sets exactly the named field |
| EditArticleSeriesDialog.EditArticleSeries.HandleDateChange | src/components/ArticleSeries/EditArticleSeries.tsx:47-51 | returns early in view mode; otherwise sets exactly the named field |
| EditArticleSeriesDialog.EditArticleSeries.HandleSubmit | src/components/ArticleSeries/EditArticleSeries.tsx:53-65 | view mode only closes; other modes show "Serie creada" or "Serie actualizada" and close; the draft is never stored |
| EditArticleSeriesDialog.IdAlwaysReadOnly | src/components/ArticleSeries/EditArticleSeries.tsx:104 | the id input is read-only in every mode, and every other input is read-only exactly in view mode |
| EditArticleSeriesDialog.ViewModeIgnoresEdits | src/components/ArticleSeries/EditArticleSeries.tsx:34-51 | in view mode any sequence of change events leaves the draft as it was |
| EditArticleSeriesDialog.EditsTouchOnlyNamedFields | src/components/ArticleSeries/EditArticleSeries.tsx:34-51 | outside view mode a sequence of change events leaves every field it does not name as it was |
| EditArticleSeriesPage.ModeOf | src/pages/EditArticleSeries.tsx:20 | the mode is "create" when the navigation state or its mode is missing, and the given mode otherwise |
| EditArticleSeriesPage.DefaultSeries | src/pages/EditArticleSeries.tsx:25-36 | the blank series has the required fields, status "Activo" and every other field empty |
| EditArticleSeriesPage.InitialDraft | src/pages/EditArticleSeries.tsx:24-37 | the draft is the passed series, or the blank series when none is passed |
| EditArticleSeriesPage.EditArticleSeriesPage.constructor | src/pages/EditArticleSeries.tsx:20-37 | the mode and the draft are read once from the navigation state |
| EditArticleSeriesPage.EditArticleSeriesPage.HandleInputChange | src/pages/EditArticleSeries.tsx:39-44 | sets exactly that field, whatever the mode |
| EditArticleSeriesPage.EditArticleSeriesPage.HandleCancel | src/pages/EditArticleSeries.tsx:46-48 | goes to "/article-series" with no notice |
| EditArticleSeriesPage.EditArticleSeriesPage.HandleSubmit | src/pages/EditArticleSeries.tsx:50-58 | available only outside view mode; shows "Serie creada" in create mode and "Serie actualizada" otherwise, then goes to "/article-series" |
| EditArticleSeriesPage.IdEditableOnlyWhenCreating | src/pages/EditArticleSeries.tsx:84 | for the three modes, the id input can be edited exactly in "create" mode |
| WarehouseFormSchema.ValidIff | src/components/warehouse/WarehouseFormSchema.ts:4-17 | a warehouse is valid exactly when it has a code of 1–3 characters, an establishment code of at most 4, a name of 1–40, another address of at most 80, observations of at most 40, and a non-empty location and warehouse type |
| WarehouseFormSchema.DefaultWarehouseInvalid | src/types/warehouse.ts:17-30 | `defaultWarehouse` is not valid |
| WarehouseFormSchema.FreeFieldsUnconstrained | src/components/warehouse/WarehouseFormSchema.ts:8-16 | changing company, address, branch, cost centre or the inactive flag never changes validity |
| EditWarehouseForm.InlineSchemaMatchesModule | src/components/EditWarehouseForm.tsx:60-73 | the schema declared in the form accepts exactly the warehouses the shared schema accepts |
| EditWarehouseForm.MaxLengthsMatchSchema | src/components/EditWarehouseForm.tsx:118-347 | each input's `maxLength` (3, 4, 40, 80, 40) equals its schema maximum, and the inputs without a maximum have none |
| EditWarehouseForm.WithinLimitsOnlyRequiredFieldsMatter | src/components/EditWarehouseForm.tsx:60-73 | when every input is within its `maxLength`, the schema fails only when code, name, location or type is empty |
| EditWarehouseForm.InitialWarehouse | src/components/EditWarehouseForm.tsx:81-86 | the form starts from the given warehouse, or from `defaultWarehouse` when none is given |
| EditWarehouseForm.Submit | src/components/EditWarehouseForm.tsx:88-100 | an invalid warehouse gives validation errors; a valid one goes to `onSubmit` exactly when it is provided, and is otherwise only logged; the data passes on unchanged |
| EditWarehouseForm.DefaultFormNotSubmitted | src/components/EditWarehouseForm.tsx:82-100 | submitting the untouched default form never reaches `onSubmit` |
| CommissionTypes.DefaultCommissionValues | src/types/commission.ts:35-63 | in `defaultCommission` every flag is off, the percentages and stock levels are "0", and every other field is empty |
| CommissionTypes.SetText | src/components/CommissionForm.tsx:54-59 | exactly the named text field takes the value; the other text fields and all flags are unchanged |
| CommissionTypes.Toggle | src/components/CommissionForm.tsx:62-67 | exactly the named flag is negated; every other flag and all text fields are unchanged |
| CommissionTypes.ToggleTwice | src/components/CommissionForm.tsx:62-67 | ticking the same box twice restores the commission |
| CommissionTypes.SetTextSameValue | src/components/CommissionForm.tsx:54-59 | setting a field to the value it already holds changes nothing |
| CommissionForm.CommissionForm.constructor | src/components/CommissionForm.tsx:18 | the form starts as a copy of `defaultCommission` |
| CommissionForm.CommissionForm.HandleChange | src/components/CommissionForm.tsx:54-59 | the commission changes by `SetText` on that field |
| CommissionForm.CommissionForm.HandleCheckboxChange | src/components/CommissionForm.tsx:62-67 | the commission changes by `Toggle` on that flag |
| CommissionForm.CommissionForm.HandleSubmit | src/components/CommissionForm.tsx:97-101 | submit leaves the commission unchanged |
| CommissionForm.EditabilityFollowsFlags | src/components/CommissionForm.tsx:260-380 | ISC type, ISC unit and ISC percentage can be edited exactly when `affectedByISC` is on; the perception percentage exactly when `affectedByPerception` is on; the detraction code, its search button and its percentage exactly when `affectedByDetraction` is on. Code, unit of measure and description can never be edited |
| CommissionForm.FreshFormGatesClosed | src/components/CommissionForm.tsx:18 | on a fresh form every flag-gated control is disabled |
| CommissionForm.ToggleOpensGatedControls | src/components/CommissionForm.tsx:62-67 | ticking a flag flips the editability of the controls it gates and leaves every other control as it was; ticking it again restores it |

## Left out

- JSX layout, tabs, icons, cards and dialogs, and the sidebar render components (`RenderMenuItem`, `TopLevelMenuItem`, `CategoryMenuItem`, `LeafMenuItem`, `SidebarNavigation`). They are presentation only.
- Toasts and `console.log` are not modelled as effects. The notice a handler shows, when it matters, is part of the outcome value it returns. Router navigation is modelled as a `Navigate` outcome with the target path.
- `searchDetractionCode` and `searchLocationCode` in src/components/CommissionForm.tsx are not modelled. They finish in a `setTimeout` callback, and the model has no timers.
- The react-hook-form and zod machinery (`useForm`, `zodResolver`, `watch`) is not modelled. Only the schema's predicate and the dispatch after validation are.
- `ItemWarehouseForm.tsx`, the wiring-only `warehouse/EditWarehouseForm.tsx`, and the warehouse and article sub-forms and tabs are not modelled. They are conditional rendering, or they depend on types that are not part of this model.
- The article search filters are never applied to the list in the source (`handleSearch` only resets the page), and their contains/equals/startsWith selects are bound to no-ops. So the model has no article filter predicate.
- The article-name hint on the series page is not modelled. It imports `mockArticles`, which `src/types/article.ts` does not export.
- `MenuSearch.tsx` is not modelled, because its props do not match how it is called.
- The delete buttons are not modelled; they only log.
- Price formatting with `toFixed(2)` is not modelled, because it is floating point.
- Strings.LowerChar: lowers only the ASCII letters `A`–`Z`, not full Unicode `toLowerCase`. Lengths are counted in characters, not UTF-16 code units.
- The `icon` component of a menu entry is not modelled, because the filter copies it untouched.
- The article page's `perPage` is kept as the number `parseInt` yields from the select's string value. The select offers only 5, 10, 20 and 50, so parsing never fails.
- The saves do not add or replace records: `handleSaveArticle` only hides the editor, and neither series editor stores its draft.
- The page count has no minimum of 1, and the current page is clamped only by previous and next. With an empty list, next moves to page 0 (`Paging.NextOnEmptyList`).
