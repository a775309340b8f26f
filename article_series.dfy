/**
 * Article series (serial/lot records), src/types/articleSeries.ts. Every
 * field of `ArticleSeries` is a string and all but three are optional, so a
 * record is a map from field name to string; an absent key is `undefined`.
 */
module ArticleSeriesTypes {
  import opened Wrappers

  type Series = map<string, string>

  /** The required fields of `ArticleSeries`. */
  predicate IsArticleSeries(s: Series)
  {
    "id" in s && "warehouseId" in s && "articleId" in s
  }

  /** `series[field]`, `undefined` when absent. */
  function Get(s: Series, field: string): Option<string>
  {
    if field in s then Some(s[field]) else None
  }

  /** `{ ...prev, [field]: value }`. */
  function Set(s: Series, field: string, value: string): (r: Series)
    ensures Get(r, field) == Some(value)
    ensures forall g | g != field :: Get(r, g) == Get(s, g)
  {
    s[field := value]
  }

  /** `mockArticleSeries`. */
  function MockArticleSeries(): (all: seq<Series>)
    ensures |all| == 3
    ensures forall s | s in all :: IsArticleSeries(s)
  {
    [MockSeries1(), MockSeries2(), MockSeries3()]
  }

  function MockSeries1(): Series
  {
    map["id" := "1", "warehouseId" := "W001", "warehouseName" := "Almacén Principal",
        "articleId" := "1", "articleCode" := "ART001", "articleName" := "Laptop HP 15.6\"",
        "series1" := "SER001", "series2" := "LOT001", "status" := "Activo"]
  }

  function MockSeries2(): Series
  {
    map["id" := "2", "warehouseId" := "W001", "warehouseName" := "Almacén Principal",
        "articleId" := "2", "articleCode" := "ART002", "articleName" := "Monitor LG 24\"",
        "series1" := "SER002", "series2" := "LOT002", "status" := "Activo"]
  }

  function MockSeries3(): Series
  {
    map["id" := "3", "warehouseId" := "W002", "warehouseName" := "Almacén Secundario",
        "articleId" := "3", "articleCode" := "ART003", "articleName" := "Teclado Logitech K380",
        "series1" := "SER003", "series2" := "LOT003", "status" := "Inactivo"]
  }
}

/**
 * The article-series list page (src/pages/ArticleSeries.tsx): five search
 * inputs, and a search that filters the full mock list by all of them.
 */
module ArticleSeriesSearch {
  import opened Wrappers
  import opened Strings
  import opened ArticleSeriesTypes

  /** The five search inputs; `""` means "any". */
  datatype Criteria = Criteria(warehouse: string, article: string, series1: string, series2: string, status: string)

  const NoCriteria := Criteria("", "", "", "", "")

  /** `series.field?.toLowerCase().includes(term.toLowerCase())`: an absent field never matches. */
  predicate FieldContains(s: Series, field: string, term: string)
  {
    Get(s, field).Some? && ContainsIgnoreCase(Get(s, field).value, term)
  }

  /** The filter callback: the AND of the five per-field tests, each vacuous when its input is empty. */
  predicate Matches(s: Series, c: Criteria)
  {
    && (c.warehouse == "" || FieldContains(s, "warehouseName", c.warehouse))
    && (c.article == "" || FieldContains(s, "articleCode", c.article) || FieldContains(s, "articleName", c.article))
    && (c.series1 == "" || FieldContains(s, "series1", c.series1))
    && (c.series2 == "" || FieldContains(s, "series2", c.series2))
    && (c.status == "" || Get(s, "status") == Some(c.status))
  }

  /** `all.filter(series => Matches(series, criteria))`. */
  function Filter(all: seq<Series>, c: Criteria): (r: seq<Series>)
    ensures |r| <= |all|
    ensures forall s | s in r :: s in all && Matches(s, c)
  {
    if all == [] then []
    else if Matches(all[0], c) then [all[0]] + Filter(all[1..], c)
    else Filter(all[1..], c)
  }

  /** `xs` is `ys` with some elements left out, the rest in their original order. */
  predicate IsSubsequence(xs: seq<Series>, ys: seq<Series>)
  {
    if xs == [] then true
    else if ys == [] then false
    else (xs[0] == ys[0] && IsSubsequence(xs[1..], ys[1..])) || IsSubsequence(xs, ys[1..])
  }

  /** A record is in the result exactly when it is in the list and passes all five tests. */
  lemma {:induction false} FilterMembership(all: seq<Series>, c: Criteria, s: Series)
    ensures s in Filter(all, c) <==> s in all && Matches(s, c)
  {
    if all != [] {
      FilterMembership(all[1..], c, s);
      assert s in all <==> s == all[0] || s in all[1..];
    }
  }

  /** The result keeps the original relative order. */
  lemma {:induction false} FilterPreservesOrder(all: seq<Series>, c: Criteria)
    ensures IsSubsequence(Filter(all, c), all)
  {
    if all != [] {
      FilterPreservesOrder(all[1..], c);
      if !Matches(all[0], c) && Filter(all[1..], c) != [] {
        assert IsSubsequence(Filter(all, c), all[1..]);
      }
    }
  }

  /** With every input empty the search returns the whole list. */
  lemma {:induction false} EmptyCriteriaKeepAll(all: seq<Series>)
    ensures Filter(all, NoCriteria) == all
  {
    if all != [] {
      EmptyCriteriaKeepAll(all[1..]);
    }
  }

  /** A record lacking a field fails every non-empty criterion on it. */
  lemma AbsentFieldFails(s: Series, c: Criteria)
    ensures c.warehouse != "" && "warehouseName" !in s ==> !Matches(s, c)
    ensures c.series1 != "" && "series1" !in s ==> !Matches(s, c)
    ensures c.series2 != "" && "series2" !in s ==> !Matches(s, c)
    ensures c.status != "" && "status" !in s ==> !Matches(s, c)
    ensures c.article != "" && "articleCode" !in s && "articleName" !in s ==> !Matches(s, c)
  {
  }

  /** Filtering three records keeps exactly those that pass, in order. */
  lemma FilterOfThree(a: Series, b: Series, d: Series, c: Criteria)
    ensures Filter([a, b, d], c) ==
      (if Matches(a, c) then [a] else []) + (if Matches(b, c) then [b] else []) + (if Matches(d, c) then [d] else [])
  {
    assert Filter([d], c) == (if Matches(d, c) then [d] else []) by {
      assert [d][1..] == [];
    }
    assert Filter([b, d], c) == (if Matches(b, c) then [b] else []) + Filter([d], c) by {
      assert [b, d][1..] == [d];
    }
    assert Filter([a, b, d], c) == (if Matches(a, c) then [a] else []) + Filter([b, d], c) by {
      assert [a, b, d][1..] == [b, d];
    }
  }

  /** Status is compared exactly: "Inactivo" finds only series 3. */
  lemma StatusInactivoFindsSeriesThree()
    ensures Filter(MockArticleSeries(), NoCriteria.(status := "Inactivo")) == [MockSeries3()]
  {
    var c := NoCriteria.(status := "Inactivo");
    assert Get(MockSeries1(), "status") == Some("Activo") && "Activo" != "Inactivo";
    assert Get(MockSeries2(), "status") == Some("Activo");
    assert Get(MockSeries3(), "status") == Some("Inactivo");
    FilterOfThree(MockSeries1(), MockSeries2(), MockSeries3(), c);
  }

  /** Status is case-sensitive: "inactivo" finds nothing. */
  lemma StatusIsCaseSensitive()
    ensures Filter(MockArticleSeries(), NoCriteria.(status := "inactivo")) == []
  {
    var c := NoCriteria.(status := "inactivo");
    assert Get(MockSeries1(), "status") == Some("Activo") && "Activo" != "inactivo";
    assert Get(MockSeries2(), "status") == Some("Activo");
    assert Get(MockSeries3(), "status") == Some("Inactivo") && "Inactivo"[0] != "inactivo"[0];
    FilterOfThree(MockSeries1(), MockSeries2(), MockSeries3(), c);
  }

  /** The article search looks at code or name, ignoring case: "lap" finds only series 1. */
  lemma ArticleLapFindsSeriesOne()
    ensures Filter(MockArticleSeries(), NoCriteria.(article := "lap")) == [MockSeries1()]
  {
    LapMatchesFirst();
    LapMissesSecond();
    LapMissesThird();
    FilterOfThree(MockSeries1(), MockSeries2(), MockSeries3(), NoCriteria.(article := "lap"));
  }

  lemma LapMatchesFirst()
    ensures Matches(MockSeries1(), NoCriteria.(article := "lap"))
  {
    assert Get(MockSeries1(), "articleName") == Some("Laptop HP 15.6\"");
    LaptopContainsLap();
  }

  lemma LapMissesSecond()
    ensures !Matches(MockSeries2(), NoCriteria.(article := "lap"))
  {
    LapMissesOthers(MockSeries2(), "ART002", "Monitor LG 24\"");
  }

  lemma LapMissesThird()
    ensures !Matches(MockSeries3(), NoCriteria.(article := "lap"))
  {
    LapMissesOthers(MockSeries3(), "ART003", "Teclado Logitech K380");
  }

  lemma LapMissesOthers(s: Series, code: string, name: string)
    requires Get(s, "articleCode") == Some(code) && Get(s, "articleName") == Some(name)
    requires 'p' !in code && 'P' !in code && 'p' !in name && 'P' !in name
    ensures !Matches(s, NoCriteria.(article := "lap"))
  {
    NotMatchingWithoutP(code);
    NotMatchingWithoutP(name);
  }

  lemma LowerLap()
    ensures Lower("lap") == "lap"
  {
  }

  lemma LaptopContainsLap()
    ensures ContainsIgnoreCase("Laptop HP 15.6\"", "lap")
  {
    var l := Lower("Laptop HP 15.6\"");
    LowerLap();
    assert l[0] == 'l' && l[1] == 'a' && l[2] == 'p';
    assert "lap" <= l;
  }

  lemma NotMatchingWithoutP(s: string)
    requires 'p' !in s && 'P' !in s
    ensures !ContainsIgnoreCase(s, "lap")
  {
    LowerMissing(s, 'p');
    LowerLap();
    MissingCharExcludes(Lower(s), "lap", 'p');
  }
}

/** The page's state: the five inputs and the displayed result. */
module ArticleSeriesPage {
  import opened ArticleSeriesTypes
  import opened ArticleSeriesSearch

  class ArticleSeriesPage {
    var filteredSeries: seq<Series>
    var criteria: Criteria

    /** The list starts as the whole mock list, every input empty. */
    constructor ()
      ensures filteredSeries == MockArticleSeries() && criteria == NoCriteria
    {
      filteredSeries := MockArticleSeries();
      criteria := NoCriteria;
    }

    /** Typing into one of the inputs (`setSearchWarehouse` and the rest). */
    method SetCriteria(c: Criteria)
      modifies this`criteria
      ensures criteria == c
    {
      criteria := c;
    }

    /** `handleSearch`: filters the full mock list, never the previous result. */
    method HandleSearch()
      modifies this`filteredSeries
      ensures filteredSeries == Filter(MockArticleSeries(), criteria)
    {
      filteredSeries := Filter(MockArticleSeries(), criteria);
    }
  }
}
