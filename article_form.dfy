/**
 * The simpler article editor (src/components/ArticleForm.tsx): the same
 * draft handling as the full editor, no `categoryAccount` in the blank
 * draft, a possibly absent mode, and a save button that passes the draft
 * on without any check.
 */
module ArticleForm {
  import opened Wrappers
  import opened ArticleRecord

  /** The blank draft: empty strings, status "Activo", no stock, no category account. */
  function DefaultDraft(): (d: Article)
    ensures Field(d, "status") == Some(Str("Activo"))
    ensures Field(d, "hasStock") == Some(Bool(false))
    ensures Field(d, "categoryAccount") == None
    ensures forall k | k in d && k != "status" && k != "hasStock" :: d[k] == Str("")
  {
    map["id" := Str(""), "code" := Str(""), "description" := Str(""), "alternateCode" := Str(""),
        "partNumber" := Str(""), "crossReference" := Str(""), "storage" := Str(""),
        "status" := Str("Activo"), "brand" := Str(""), "barcode" := Str(""), "supplier" := Str(""),
        "hasStock" := Bool(false)]
  }

  class ArticleForm {
    const mode: Option<FormMode>   // `"new" | "edit" | "view" | null`
    var formData: Article

    /** Read-only exactly in "view" mode; a null mode is editable. */
    predicate IsReadOnly()
    {
      mode == Some(View)
    }

    constructor (mode: Option<FormMode>, article: Option<Article>)
      ensures this.mode == mode && formData == ResetDraft(article, DefaultDraft())
    {
      this.mode := mode;
      formData := ResetDraft(article, DefaultDraft());
    }

    /** The `[article]` effect when the prop changes. */
    method ArticleChanged(article: Option<Article>)
      modifies this`formData
      ensures formData == ResetDraft(article, DefaultDraft())
    {
      formData := ResetDraft(article, DefaultDraft());
    }

    /** `handleChange(field, value)`: exactly that field of the draft changes. */
    method HandleChange(field: string, value: Value)
      requires IsInputValue(value)
      modifies this`formData
      ensures formData == SetField(old(formData), field, value)
    {
      formData := SetField(formData, field, value);
    }

    /** The save button (absent in read-only mode): `onSave(formData)`, whatever the draft holds. */
    method Save() returns (saved: Article)
      requires !IsReadOnly()
      ensures saved == formData
    {
      saved := formData;
    }
  }
}
