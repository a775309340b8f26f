/**
 * The full-page article editor (src/components/EditArticleForm.tsx): a
 * draft record (`formData`) replaced by the `article` prop, changed one
 * field at a time, and a save gate that refuses an article without code
 * or description.
 */
module EditArticleForm {
  import opened Wrappers
  import opened ArticleRecord

  /** The blank draft of a new article. */
  function DefaultDraft(): (d: Article)
    ensures Field(d, "status") == Some(Str("Activo"))
    ensures Field(d, "hasStock") == Some(Bool(false))
    ensures forall k | k in d && k != "status" && k != "hasStock" :: d[k] == Str("")
    ensures !Truthy(Field(d, "code")) && !Truthy(Field(d, "description"))
  {
    map["id" := Str(""), "code" := Str(""), "description" := Str(""), "alternateCode" := Str(""),
        "partNumber" := Str(""), "crossReference" := Str(""), "storage" := Str(""),
        "status" := Str("Activo"), "brand" := Str(""), "barcode" := Str(""), "supplier" := Str(""),
        "hasStock" := Bool(false), "categoryAccount" := Str("")]
  }

  /** The result of pressing "Crear"/"Guardar". */
  datatype SubmitOutcome =
    | Rejected                               // error toast, `onSave` not called
    | Saved(article: Article, title: string) // `onSave(formData)` then a success toast

  /**
   * `handleSubmit`'s decision: with a falsy code or description nothing is
   * saved; otherwise the draft as it stands goes to `onSave`.
   */
  function Submit(draft: Article, mode: FormMode): (r: SubmitOutcome)
    ensures r.Rejected? <==> !Truthy(Field(draft, "code")) || !Truthy(Field(draft, "description"))
    ensures r.Saved? ==> r.article == draft
    ensures r.Saved? ==> r.title == (if mode == New then "Artículo Creado" else "Artículo Actualizado")
  {
    if !Truthy(Field(draft, "code")) || !Truthy(Field(draft, "description")) then Rejected
    else Saved(draft, if mode == New then "Artículo Creado" else "Artículo Actualizado")
  }

  class EditArticleForm {
    const mode: FormMode
    var formData: Article

    /** Every control is read-only in "view" mode. */
    predicate IsReadOnly()
    {
      mode == View
    }

    /** The code input is writable only when creating an article. */
    predicate CodeReadOnly()
    {
      IsReadOnly() || mode == Edit
    }

    /** The "Crear"/"Guardar" button is rendered only outside "view" mode. */
    predicate SaveOffered()
    {
      !IsReadOnly()
    }

    /** Mounting: the blank initial state, then the `[article]` effect. */
    constructor (mode: FormMode, article: Option<Article>)
      ensures this.mode == mode && formData == ResetDraft(article, DefaultDraft())
    {
      this.mode := mode;
      formData := ResetDraft(article, DefaultDraft());
    }

    /** The `[article]` effect when the prop changes. */
    method ArticleChanged(article: Option<Article>)
      modifies this`formData
      ensures formData == ResetDraft(article, DefaultDraft())
    {
      formData := ResetDraft(article, DefaultDraft());
    }

    /** `handleChange(field, value)`: exactly that field of the draft changes. */
    method HandleChange(field: string, value: Value)
      requires IsInputValue(value)
      modifies this`formData
      ensures formData == SetField(old(formData), field, value)
    {
      formData := SetField(formData, field, value);
    }

    /** `handleSubmit`: the draft is never changed, whatever the outcome. */
    method HandleSubmit() returns (outcome: SubmitOutcome)
      requires SaveOffered()
      ensures outcome == Submit(formData, mode)
    {
      if !Truthy(Field(formData, "code")) || !Truthy(Field(formData, "description")) {
        return Rejected;
      }
      outcome := Saved(formData, if mode == New then "Artículo Creado" else "Artículo Actualizado");
    }
  }

  /** Code is editable only in "new" mode; everything is read-only in "view" mode. */
  lemma ReadOnlyRules(f: EditArticleForm)
    ensures f.IsReadOnly() <==> f.mode == View
    ensures !f.CodeReadOnly() <==> f.mode == New
    ensures f.SaveOffered() <==> f.mode != View
  {
  }

  /** A blank draft cannot be saved. */
  lemma BlankDraftRejected(mode: FormMode)
    ensures Submit(ResetDraft(None, DefaultDraft()), mode) == Rejected
  {
  }

  /**
   * Creating an article: a blank draft with code "A1" and description
   * "Widget" typed in is saved with exactly those values.
   */
  lemma CreateScenario()
    ensures var d := SetField(SetField(ResetDraft(None, DefaultDraft()), "code", Str("A1")), "description", Str("Widget"));
            Submit(d, New) == Saved(d, "Artículo Creado") && Field(d, "code") == Some(Str("A1"))
  {
    var d0 := ResetDraft(None, DefaultDraft());
    var d1 := SetField(d0, "code", Str("A1"));
    var d := SetField(d1, "description", Str("Widget"));
    assert Field(d, "code") == Field(d1, "code");
  }

  /** Clearing the code of any draft blocks saving it. */
  lemma ClearedCodeRejected(draft: Article, mode: FormMode)
    ensures Submit(SetField(draft, "code", Str("")), mode) == Rejected
  {
  }
}
