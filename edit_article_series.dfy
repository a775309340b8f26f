/**
 * The article-series dialog (src/components/ArticleSeries/EditArticleSeries.tsx):
 * a draft that every change handler leaves alone in "view" mode, and a
 * submit that only shows a notice and closes.
 */
module EditArticleSeriesDialog {
  import opened Wrappers
  import opened ArticleSeriesTypes

  /** The draft after the `[articleSeries]` effect: the given series, or only `status: "Activo"`. */
  function DraftFor(series: Option<Series>): (d: Series)
    ensures series.Some? ==> d == series.value
    ensures series.None? ==> d.Keys == {"status"} && d["status"] == "Activo"
  {
    series.GetOr(map["status" := "Activo"])
  }

  /** The update each change handler performs: nothing in view mode, one field otherwise. */
  function GuardedSet(viewMode: bool, draft: Series, name: string, value: string): (r: Series)
    ensures viewMode ==> r == draft
    ensures !viewMode ==> Get(r, name) == Some(value) && forall g | g != name :: Get(r, g) == Get(draft, g)
  {
    if viewMode then draft else Set(draft, name, value)
  }

  /** `getDialogTitle()`: three fixed titles and a fallback for any other mode. */
  function DialogTitle(mode: string): (title: string)
    ensures mode == "create" ==> title == "Crear Serie"
    ensures mode == "edit" ==> title == "Modificar Serie"
    ensures mode == "view" ==> title == "Detalle de Serie"
    ensures mode !in {"create", "edit", "view"} ==> title == "Serie"
  {
    if mode == "create" then "Crear Serie"
    else if mode == "edit" then "Modificar Serie"
    else if mode == "view" then "Detalle de Serie"
    else "Serie"
  }

  /** What pressing the dialog's main button does; it always ends by closing the dialog. */
  datatype SubmitOutcome =
    | CloseOnly                    // view mode: `onClose()` only
    | NoticeAndClose(title: string) // otherwise: a toast, then `onClose()`

  class EditArticleSeries {
    const mode: string
    var formData: Series

    /** `isViewMode`. */
    predicate IsViewMode()
    {
      mode == "view"
    }

    /** The id input is always read-only; every other input is read-only exactly in view mode. */
    predicate InputReadOnly(name: string)
    {
      name == "id" || IsViewMode()
    }

    /** Mounting runs the `[articleSeries]` effect. */
    constructor (mode: string, series: Option<Series>)
      ensures this.mode == mode && formData == DraftFor(series)
    {
      this.mode := mode;
      formData := DraftFor(series);
    }

    /** The `[articleSeries]` effect when the prop changes. */
    method SeriesChanged(series: Option<Series>)
      modifies this`formData
      ensures formData == DraftFor(series)
    {
      formData := DraftFor(series);
    }

    /** `handleChange` for text inputs (the input's `name` and `value`). */
    method HandleChange(name: string, value: string)
      modifies this`formData
      ensures formData == GuardedSet(IsViewMode(), old(formData), name, value)
    {
      if IsViewMode() {
        return;
      }
      formData := Set(formData, name, value);
    }

    /** `handleSelectChange`. */
    method HandleSelectChange(name: string, value: string)
      modifies this`formData
      ensures formData == GuardedSet(IsViewMode(), old(formData), name, value)
    {
      if IsViewMode() {
        return;
      }
      formData := Set(formData, name, value);
    }

    /** `handleDateChange`. */
    method HandleDateChange(name: string, value: string)
      modifies this`formData
      ensures formData == GuardedSet(IsViewMode(), old(formData), name, value)
    {
      if IsViewMode() {
        return;
      }
      formData := Set(formData, name, value);
    }

    /** `handleSubmit`: the draft is not stored anywhere. */
    method HandleSubmit() returns (outcome: SubmitOutcome)
      ensures IsViewMode() <==> outcome == CloseOnly
      ensures outcome.NoticeAndClose? ==>
        outcome.title == (if mode == "create" then "Serie creada" else "Serie actualizada")
    {
      if IsViewMode() {
        return CloseOnly;
      }
      outcome := NoticeAndClose(if mode == "create" then "Serie creada" else "Serie actualizada");
    }
  }

  /** The id can never be typed into; the other inputs follow the mode. */
  lemma IdAlwaysReadOnly(d: EditArticleSeries, name: string)
    ensures d.InputReadOnly("id")
    ensures name != "id" ==> (d.InputReadOnly(name) <==> d.mode == "view")
  {
  }

  /** In view mode any sequence of change events leaves the draft as it was. */
  lemma {:induction false} ViewModeIgnoresEdits(draft: Series, edits: seq<(string, string)>)
    ensures Replay(true, draft, edits) == draft
  {
    if edits != [] {
      ViewModeIgnoresEdits(draft, edits[..|edits| - 1]);
    }
  }

  /**
   * Outside view mode a sequence of change events touches only the fields
   * it names: every other field keeps its value.
   */
  lemma {:induction false} EditsTouchOnlyNamedFields(draft: Series, edits: seq<(string, string)>, field: string)
    requires forall i | 0 <= i < |edits| :: edits[i].0 != field
    ensures Get(Replay(false, draft, edits), field) == Get(draft, field)
  {
    if edits != [] {
      EditsTouchOnlyNamedFields(draft, edits[..|edits| - 1], field);
    }
  }

  /** The draft after a sequence of change events, oldest first. */
  function Replay(viewMode: bool, draft: Series, edits: seq<(string, string)>): Series
  {
    if edits == [] then draft
    else
      var last := edits[|edits| - 1];
      GuardedSet(viewMode, Replay(viewMode, draft, edits[..|edits| - 1]), last.0, last.1)
  }
}

/**
 * The stand-alone article-series editing page (src/pages/EditArticleSeries.tsx):
 * mode and series come from the navigation state, the change handler does
 * not look at the mode (the inputs are disabled instead), and both buttons
 * end on the series list.
 */
module EditArticleSeriesPage {
  import opened Wrappers
  import opened ArticleSeriesTypes

  /** `location.state`: both entries optional. */
  datatype NavigationState = NavigationState(mode: Option<string>, articleSeries: Option<Series>)

  /** `const { mode = "create" } = location.state || {}`. */
  function ModeOf(state: Option<NavigationState>): (mode: string)
    ensures state.None? ==> mode == "create"
    ensures state.Some? && state.value.mode.None? ==> mode == "create"
    ensures state.Some? && state.value.mode.Some? ==> mode == state.value.mode.value
  {
    match state
    case None => "create"
    case Some(s) => s.mode.GetOr("create")
  }

  /** The blank series: empty required and display fields, status "Activo". */
  function DefaultSeries(): (d: Series)
    ensures IsArticleSeries(d)
    ensures Get(d, "status") == Some("Activo")
    ensures forall k | k in d && k != "status" :: d[k] == ""
  {
    map["id" := "", "warehouseId" := "", "articleId" := "", "warehouseName" := "",
        "articleCode" := "", "articleName" := "", "series1" := "", "series2" := "",
        "series3" := "", "status" := "Activo"]
  }

  /** The lazy initial draft: the passed series, or the blank one. */
  function InitialDraft(state: Option<NavigationState>): (d: Series)
    ensures state.Some? && state.value.articleSeries.Some? ==> d == state.value.articleSeries.value
    ensures state.None? || state.value.articleSeries.None? ==> d == DefaultSeries()
  {
    match state
    case None => DefaultSeries()
    case Some(s) => s.articleSeries.GetOr(DefaultSeries())
  }

  /** Where the page goes next, and the notice shown on the way, if any. */
  datatype Outcome = Navigate(notice: Option<string>, path: string)

  const SeriesListPath := "/article-series"

  class EditArticleSeriesPage {
    const mode: string
    var formData: Series

    /** `isViewOnly`. */
    predicate IsViewOnly()
    {
      mode == "view"
    }

    /** The id input is disabled in "view" and "edit" mode. */
    predicate IdEditable()
    {
      !(IsViewOnly() || mode == "edit")
    }

    /** The "Crear"/"Guardar" button is rendered only outside "view" mode. */
    predicate SubmitOffered()
    {
      !IsViewOnly()
    }

    constructor (state: Option<NavigationState>)
      ensures mode == ModeOf(state) && formData == InitialDraft(state)
    {
      mode := ModeOf(state);
      formData := InitialDraft(state);
    }

    /** `handleInputChange(field, value)`: sets that field whatever the mode. */
    method HandleInputChange(field: string, value: string)
      modifies this`formData
      ensures formData == Set(old(formData), field, value)
    {
      formData := Set(formData, field, value);
    }

    /** `handleCancel`. */
    method HandleCancel() returns (outcome: Outcome)
      ensures outcome == Navigate(None, SeriesListPath)
    {
      outcome := Navigate(None, SeriesListPath);
    }

    /** `handleSubmit`: a notice, then the list; the draft is not stored. */
    method HandleSubmit() returns (outcome: Outcome)
      requires SubmitOffered()
      ensures outcome.path == SeriesListPath
      ensures outcome.notice == Some(if mode == "create" then "Serie creada" else "Serie actualizada")
    {
      outcome := Navigate(Some(if mode == "create" then "Serie creada" else "Serie actualizada"), SeriesListPath);
    }
  }

  /** For the three modes the page is reached with, the id is editable only when creating. */
  lemma IdEditableOnlyWhenCreating(p: EditArticleSeriesPage)
    requires p.mode in {"create", "edit", "view"}
    ensures p.IdEditable() <==> p.mode == "create"
  {
  }
}
