/**
 * Articles as the application holds them: `Article` in src/types/article.ts
 * is an open record (`[key: string]: any`), so a record is a map from
 * field name to value, and `{ ...record, [field]: value }` is a map update.
 */
module ArticleRecord {
  import opened Wrappers

  /** The values the article screens store: strings, booleans and numbers (prices). */
  datatype Value = Str(s: string) | Bool(b: bool) | Num(n: int)

  type Article = map<string, Value>

  /** The editor modes of the article screens (`"new" | "edit" | "view"`). */
  datatype FormMode = New | Edit | View

  /** `record[field]`, with `undefined` for a field that is not there. */
  function Field(a: Article, field: string): Option<Value>
  {
    if field in a then Some(a[field]) else None
  }

  /** JavaScript truthiness of a field: absent, `""`, `false` and `0` are falsy. */
  predicate Truthy(v: Option<Value>)
  {
    match v
    case None => false
    case Some(Str(s)) => s != ""
    case Some(Bool(b)) => b
    case Some(Num(n)) => n != 0
  }

  /** `{ ...record, [field]: value }`. */
  function SetField(a: Article, field: string, value: Value): (r: Article)
    ensures Field(r, field) == Some(value)
    ensures forall g | g != field :: Field(r, g) == Field(a, g)
    ensures r.Keys == a.Keys + {field}
  {
    a[field := value]
  }

  /**
   * The `[article]` effect of both article editors: the draft becomes the
   * given article, or the editor's blank draft when the prop is null.
   */
  function ResetDraft(article: Option<Article>, blank: Article): (d: Article)
    ensures article.Some? ==> d == article.value
    ensures article.None? ==> d == blank
  {
    article.GetOr(blank)
  }

  /** The value a field-change handler receives: a string or a boolean (`string | boolean`). */
  predicate IsInputValue(v: Value)
  {
    v.Str? || v.Bool?
  }

  /** Setting a field twice keeps only the second value. */
  lemma SetFieldOverwrites(a: Article, field: string, v1: Value, v2: Value)
    ensures SetField(SetField(a, field, v1), field, v2) == SetField(a, field, v2)
  {
  }

  /** Setting two different fields commutes. */
  lemma SetFieldCommutes(a: Article, f: string, g: string, v: Value, w: Value)
    requires f != g
    ensures SetField(SetField(a, f, v), g, w) == SetField(SetField(a, g, w), f, v)
  {
  }
}
