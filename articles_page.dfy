/**
 * The article management page (src/pages/Articles.tsx): which editor is
 * open, the pagination state and the search-filter panel. Each `useState`
 * is a field; each handler is a method.
 */
module ArticlesPage {
  import opened Wrappers
  import opened ArticleRecord
  import opened Paging

  /** The page's fixed article list (`articleData`). */
  function ArticleData(): (data: seq<Article>)
    ensures |data| == 2
  {
    [ map["id" := Str("1"), "code" := Str("A001"), "name" := Str("Artículo 1"),
          "description" := Str("Descripción del artículo 1"), "price" := Num(100)],
      map["id" := Str("2"), "code" := Str("A002"), "name" := Str("Artículo 2"),
          "description" := Str("Descripción del artículo 2"), "price" := Num(200)] ]
  }

  /** The initial `searchFilters`: every text filter empty, `hasStock` off. */
  function InitialFilters(): (f: Article)
    ensures forall k | k in f && k != "hasStock" :: f[k] == Str("")
    ensures Field(f, "hasStock") == Some(Bool(false))
  {
    map["description" := Str(""), "class" := Str(""), "subClass" := Str(""), "code" := Str(""),
        "crossReference" := Str(""), "alternateCode" := Str(""), "partNumber" := Str(""),
        "storage" := Str(""), "status" := Str(""), "brand" := Str(""), "client" := Str(""),
        "supplier" := Str(""), "price" := Str(""), "categoryAccount" := Str(""),
        "hasStock" := Bool(false)]
  }

  class ArticlesPage {
    var showForm: bool
    var formMode: FormMode
    var selectedArticle: Option<Article>
    var currentPage: int
    var perPage: nat
    var searchFilters: Article
    const articles: seq<Article>

    /** The rows-per-page value is always one the select offers. */
    ghost predicate Valid()
      reads this
    {
      OfferedPageSize(perPage)
    }

    /** `Math.ceil(articles.length / parseInt(perPage))`. */
    function PageCount(): nat
      reads this
      requires Valid()
    {
      TotalPages(|articles|, perPage)
    }

    /** `currentArticles`: the rows shown on the current page. */
    function CurrentArticles(): seq<Article>
      reads this
    {
      PageWindow(articles, currentPage, perPage)
    }

    constructor ()
      ensures Valid()
      ensures !showForm && formMode == New && selectedArticle == None
      ensures currentPage == 1 && perPage == 5
      ensures searchFilters == InitialFilters() && articles == ArticleData()
    {
      showForm := false;
      formMode := New;
      selectedArticle := None;
      currentPage := 1;
      perPage := 5;
      searchFilters := InitialFilters();
      articles := ArticleData();
    }

    /** "Nuevo": no article selected, mode "new", editor shown. */
    method HandleNewArticle()
      modifies this
      ensures selectedArticle == None && formMode == New && showForm
      ensures currentPage == old(currentPage) && perPage == old(perPage) && searchFilters == old(searchFilters)
    {
      selectedArticle := None;
      formMode := New;
      showForm := true;
    }

    /** The pencil button of a row: that article, in mode "edit". */
    method HandleEditArticle(article: Article)
      modifies this
      ensures selectedArticle == Some(article) && formMode == Edit && showForm
      ensures currentPage == old(currentPage) && perPage == old(perPage) && searchFilters == old(searchFilters)
    {
      selectedArticle := Some(article);
      formMode := Edit;
      showForm := true;
    }

    /** The eye button of a row: that article, in mode "view". */
    method HandleViewArticle(article: Article)
      modifies this
      ensures selectedArticle == Some(article) && formMode == View && showForm
      ensures currentPage == old(currentPage) && perPage == old(perPage) && searchFilters == old(searchFilters)
    {
      selectedArticle := Some(article);
      formMode := View;
      showForm := true;
    }

    /** The editor's save callback: only hides the editor; the list is not touched. */
    method HandleSaveArticle(article: Article)
      modifies this
      ensures !showForm
      ensures formMode == old(formMode) && selectedArticle == old(selectedArticle)
      ensures currentPage == old(currentPage) && perPage == old(perPage) && searchFilters == old(searchFilters)
    {
      showForm := false;
    }

    /** The editor's close callback. */
    method HandleCloseForm()
      modifies this
      ensures !showForm
      ensures formMode == old(formMode) && selectedArticle == old(selectedArticle)
      ensures currentPage == old(currentPage) && perPage == old(perPage) && searchFilters == old(searchFilters)
    {
      showForm := false;
    }

    /** `handleFilterChange(field, value)`: exactly one filter changes. */
    method HandleFilterChange(field: string, value: Value)
      requires IsInputValue(value)
      modifies this`searchFilters
      ensures searchFilters == SetField(old(searchFilters), field, value)
    {
      searchFilters := SetField(searchFilters, field, value);
    }

    /** "Buscar": back to page 1; the filters are logged, never applied to the list. */
    method HandleSearch()
      modifies this`currentPage
      ensures currentPage == 1
    {
      currentPage := 1;
    }

    /**
     * The rows-per-page select: new size, back to page 1 whatever the page
     * was, so the table shows the first rows under the new size.
     */
    method HandlePerPageChange(value: nat)
      requires OfferedPageSize(value)
      modifies this`perPage, this`currentPage
      ensures Valid() && perPage == value && currentPage == 1
      ensures CurrentArticles() == articles[..Min(value, |articles|)]
    {
      perPage := value;
      currentPage := 1;
      FirstPageIsPrefix(articles, value);
    }

    /** The previous link. */
    method HandlePrevious()
      modifies this`currentPage
      ensures currentPage == PreviousPage(old(currentPage))
    {
      currentPage := PreviousPage(currentPage);
    }

    /** The next link. */
    method HandleNext()
      requires Valid()
      modifies this`currentPage
      ensures currentPage == NextPage(old(currentPage), PageCount())
    {
      currentPage := NextPage(currentPage, PageCount());
    }

    /** A numbered page link. */
    method HandlePageLink(page: int)
      requires Valid() && page in PageLinks(PageCount())
      modifies this`currentPage
      ensures currentPage == page && 1 <= currentPage <= PageCount()
    {
      currentPage := page;
    }
  }

  /** On the initial page (two articles, five per page) there is one page, showing both articles. */
  lemma InitialPageShowsAll()
    ensures TotalPages(|ArticleData()|, 5) == 1
    ensures PageWindow(ArticleData(), 1, 5) == ArticleData()
  {
  }
}
