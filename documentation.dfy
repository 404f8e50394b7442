/** The documentation page: the fetched articles, the derived category list, the search text
    and the selected category, the derived list of articles shown and the empty state. */
module Docs {
  import opened Wrappers
  import opened Text
  import opened Seqs
  import opened Entities
  import opened Views

  const AllCategory := "all"
  const NoMatchesMessage := "No documentation articles match your search."
  const NoneAvailableMessage := "No documentation available at the moment."

  /** `docs.map(doc => doc.category).filter(Boolean)`: the categories that are defined and
      non-empty, in article order. */
  function PresentCategories(docs: seq<Documentation>): (r: seq<string>)
    ensures forall c :: c in r ==> c != ""
    ensures forall i :: 0 <= i < |docs| && Truthy(docs[i].category) ==> docs[i].category.value in r
    ensures forall c :: c in r ==> exists i :: 0 <= i < |docs| && docs[i].category == Some(c)
  {
    if docs == [] then []
    else
      var rest := PresentCategories(docs[1..]);
      assert forall i :: 1 <= i < |docs| ==> docs[i] == docs[1..][i - 1];
      if Truthy(docs[0].category) then [docs[0].category.value] + rest else rest
  }

  /** The category of each article, in article order. */
  function CategoryColumn(docs: seq<Documentation>): (r: seq<Option<string>>)
    ensures |r| == |docs|
    ensures forall i :: 0 <= i < |docs| ==> r[i] == docs[i].category
  {
    if docs == [] then [] else [docs[0].category] + CategoryColumn(docs[1..])
  }

  /** A present category occurs in the category column; the first index of a category in either
      sequence moves past the first article exactly when that article does not carry it. */
  lemma {:induction false} FirstIndexStep(docs: seq<Documentation>, c: string)
    requires c in PresentCategories(docs)
    ensures Some(c) in CategoryColumn(docs)
    ensures docs[0].category == Some(c) ==>
              FirstIndex(PresentCategories(docs), c) == 0 && FirstIndex(CategoryColumn(docs), Some(c)) == 0
    ensures docs[0].category != Some(c) ==>
              c in PresentCategories(docs[1..]) &&
              FirstIndex(CategoryColumn(docs), Some(c)) == 1 + FirstIndex(CategoryColumn(docs[1..]), Some(c)) &&
              FirstIndex(PresentCategories(docs), c) ==
              (if Truthy(docs[0].category) then 1 else 0) + FirstIndex(PresentCategories(docs[1..]), c)
  {
    var column := CategoryColumn(docs);
    var i :| 0 <= i < |docs| && docs[i].category == Some(c);
    assert column[i] == Some(c);
    assert CategoryColumn(docs[1..]) == column[1..];
  }

  /** Two present categories come in the same order in `PresentCategories` as their first
      articles do in the article list. */
  lemma {:induction false} PresentOrderFollowsArticles(docs: seq<Documentation>, c1: string, c2: string)
    requires c1 in PresentCategories(docs) && c2 in PresentCategories(docs)
    ensures Some(c1) in CategoryColumn(docs) && Some(c2) in CategoryColumn(docs)
    ensures FirstIndex(PresentCategories(docs), c1) < FirstIndex(PresentCategories(docs), c2) <==>
            FirstIndex(CategoryColumn(docs), Some(c1)) < FirstIndex(CategoryColumn(docs), Some(c2))
    decreases |docs|
  {
    FirstIndexStep(docs, c1);
    FirstIndexStep(docs, c2);
    if docs[0].category != Some(c1) && docs[0].category != Some(c2) {
      PresentOrderFollowsArticles(docs[1..], c1, c2);
    }
  }

  /** `categories`: `"all"` followed by the distinct present categories in first-seen order. */
  function Categories(docs: seq<Documentation>): seq<string> {
    [AllCategory] + Distinct(PresentCategories(docs))
  }

  /** The category list starts with `"all"`; the rest are distinct, are exactly the non-empty
      categories of the articles, and come in order of first occurrence. */
  lemma CategoriesShape(docs: seq<Documentation>)
    ensures |Categories(docs)| >= 1 && Categories(docs)[0] == AllCategory
    ensures NoDuplicates(Categories(docs)[1..])
    ensures forall c :: c in Categories(docs)[1..] <==>
              c != "" && exists i :: 0 <= i < |docs| && docs[i].category == Some(c)
    ensures forall k :: 1 <= k < |Categories(docs)| ==> Categories(docs)[k] in PresentCategories(docs)
    ensures forall i, j :: 1 <= i < j < |Categories(docs)| ==>
              FirstIndex(PresentCategories(docs), Categories(docs)[i]) <
              FirstIndex(PresentCategories(docs), Categories(docs)[j])
    ensures forall k :: 1 <= k < |Categories(docs)| ==> Some(Categories(docs)[k]) in CategoryColumn(docs)
    ensures forall i, j :: 1 <= i < j < |Categories(docs)| ==>
              FirstIndex(CategoryColumn(docs), Some(Categories(docs)[i])) <
              FirstIndex(CategoryColumn(docs), Some(Categories(docs)[j]))
  {
    var present := PresentCategories(docs);
    var r := Categories(docs);
    assert r[1..] == Distinct(present);
    DedupNoDuplicates(present, {});
    forall c ensures c in r[1..] <==> c != "" && exists i :: 0 <= i < |docs| && docs[i].category == Some(c) {
      DedupMembers(present, {}, c);
      if c != "" && exists i :: 0 <= i < |docs| && docs[i].category == Some(c) {
        var i :| 0 <= i < |docs| && docs[i].category == Some(c);
        assert Truthy(docs[i].category);
      }
    }
    DedupFirstSeenOrder(present, {});
    forall k | 1 <= k < |r| ensures r[k] in present {
      assert r[k] == Distinct(present)[k - 1];
    }
    forall i, j | 1 <= i < j < |r| ensures FirstIndex(present, r[i]) < FirstIndex(present, r[j]) {
      assert r[i] == Distinct(present)[i - 1] && r[j] == Distinct(present)[j - 1];
    }
    forall k | 1 <= k < |r| ensures Some(r[k]) in CategoryColumn(docs) {
      PresentOrderFollowsArticles(docs, r[k], r[k]);
    }
    forall i, j | 1 <= i < j < |r|
      ensures FirstIndex(CategoryColumn(docs), Some(r[i])) < FirstIndex(CategoryColumn(docs), Some(r[j]))
    {
      PresentOrderFollowsArticles(docs, r[i], r[j]);
    }
  }

  /** Nothing stops an article whose category is literally `"all"` from adding a second
      `"all"` entry. */
  lemma AllCategoryCanRepeat(d: Documentation)
    requires d.category == Some(AllCategory)
    ensures Categories([d]) == [AllCategory, AllCategory]
  {
    assert PresentCategories([d]) == [AllCategory];
    assert Dedup([AllCategory], {}) == [AllCategory] + Dedup([], {AllCategory});
  }

  predicate MatchesSearch(d: Documentation, query: string) {
    FieldMatches(d.articleTitle, query) || FieldMatches(d.contentBody, query) || FieldMatches(d.keywords, query)
  }

  predicate Keeps(d: Documentation, query: string, selectedCategory: string) {
    MatchesSearch(d, query) && (selectedCategory == AllCategory || d.category == Some(selectedCategory))
  }

  /** The filter callback of `filteredDocs`. */
  function Keeper(query: string, selectedCategory: string): Documentation -> bool {
    d => Keeps(d, query, selectedCategory)
  }

  /** `filteredDocs`. */
  function Visible(docs: seq<Documentation>, query: string, selectedCategory: string): seq<Documentation> {
    Filter(docs, Keeper(query, selectedCategory))
  }

  /** An article is shown iff it was fetched, its title, body or keywords contain the query
      ignoring case, and the category is `"all"` or equals its category exactly; the shown
      list keeps the fetch order and each kept article's multiplicity. */
  lemma VisibleMembers(docs: seq<Documentation>, query: string, selectedCategory: string, d: Documentation)
    ensures d in Visible(docs, query, selectedCategory) <==>
            d in docs && MatchesSearch(d, query) &&
            (selectedCategory == AllCategory || d.category == Some(selectedCategory))
    ensures IsSubsequence(Visible(docs, query, selectedCategory), docs)
    ensures multiset(Visible(docs, query, selectedCategory))[d] ==
            if Keeps(d, query, selectedCategory) then multiset(docs)[d] else 0
  {
    FilterMembers(docs, Keeper(query, selectedCategory), d);
    FilterIsSubsequence(docs, Keeper(query, selectedCategory));
    FilterCounts(docs, Keeper(query, selectedCategory), d);
  }

  predicate HasSearchableText(d: Documentation) {
    d.articleTitle.Some? || d.contentBody.Some? || d.keywords.Some?
  }

  /** With no search text and the `"all"` category, exactly the articles with a title, a body
      or keywords are shown. */
  lemma DefaultViewShowsSearchable(docs: seq<Documentation>)
    ensures Visible(docs, "", AllCategory) == Filter(docs, HasSearchableText)
  {
    assert Lower("") == "";
    forall i | 0 <= i < |docs|
      ensures Keeps(docs[i], "", AllCategory) == HasSearchableText(docs[i])
    {
      var d := docs[i];
      if d.articleTitle.Some? { ContainsEmpty(Lower(d.articleTitle.value)); }
      if d.contentBody.Some? { ContainsEmpty(Lower(d.contentBody.value)); }
      if d.keywords.Some? { ContainsEmpty(Lower(d.keywords.value)); }
    }
    FilterCongruent(docs, Keeper("", AllCategory), HasSearchableText);
  }

  /** Search ignores case. */
  lemma SearchIgnoresCase(docs: seq<Documentation>, q1: string, q2: string, selectedCategory: string)
    requires SameIgnoringCase(q1, q2)
    ensures Visible(docs, q1, selectedCategory) == Visible(docs, q2, selectedCategory)
  {
    LowerIgnoresCase(q1, q2);
    FilterCongruent(docs, Keeper(q1, selectedCategory), Keeper(q2, selectedCategory));
  }

  /** Selecting a non-empty category that no article has empties the list. */
  lemma UnknownCategoryShowsNothing(docs: seq<Documentation>, query: string, selectedCategory: string)
    requires selectedCategory != AllCategory && selectedCategory != ""
    requires selectedCategory !in Categories(docs)
    ensures Visible(docs, query, selectedCategory) == []
  {
    CategoriesShape(docs);
    assert forall i :: 0 <= i < |docs| ==> docs[i].category != Some(selectedCategory);
    FilterNone(docs, Keeper(query, selectedCategory));
  }

  /** The empty-state text: the "no match" variant iff a search text or a category narrows the list. */
  function EmptyMessage(query: string, selectedCategory: string): (m: string)
    ensures m == NoMatchesMessage <==> query != "" || selectedCategory != AllCategory
    ensures m == NoneAvailableMessage <==> query == "" && selectedCategory == AllCategory
  {
    if query != "" || selectedCategory != AllCategory then NoMatchesMessage else NoneAvailableMessage
  }

  /** The rendering choice of the article region. */
  function Render(isLoading: bool, visible: seq<Documentation>, query: string, selectedCategory: string)
    : (c: Content<Documentation>)
    ensures isLoading <==> c.Nothing?
    ensures c.Listing? ==> c.items == visible && |visible| > 0
    ensures c.EmptyState? <==> !isLoading && visible == []
    ensures c.EmptyState? ==> c.message == EmptyMessage(query, selectedCategory)
  {
    if isLoading then Nothing
    else if |visible| > 0 then Listing(visible)
    else EmptyState(EmptyMessage(query, selectedCategory))
  }

  /** `formatDate` of the article list: a falsy date gives `""`, any other is passed to the
      locale formatter. */
  function FormatDate(date: Option<DateValue>, localize: DateValue -> string): (r: string)
    ensures !DateTruthy(date) ==> r == ""
    ensures DateTruthy(date) ==> r == localize(date.value)
  {
    if !DateTruthy(date) then "" else localize(date.value)
  }

  /** The page's state. */
  class DocumentationPage {
    var docs: seq<Documentation>
    var isLoading: bool
    var searchQuery: string
    var selectedCategory: string

    constructor ()
      ensures docs == [] && isLoading && searchQuery == "" && selectedCategory == AllCategory
    {
      docs := [];
      isLoading := true;
      searchQuery := "";
      selectedCategory := AllCategory;
    }

    /** `loadDocumentation`: a resolved fetch replaces the articles, a rejected one leaves them;
        either way loading ends. */
    method LoadDocumentation(outcome: Fetch<seq<Documentation>>)
      modifies this
      ensures docs == if outcome.Ok? then outcome.value else old(docs)
      ensures !isLoading
      ensures searchQuery == old(searchQuery) && selectedCategory == old(selectedCategory)
    {
      if outcome.Ok? {
        docs := outcome.value;
      }
      isLoading := false;
    }

    method SetSearchQuery(q: string)
      modifies this`searchQuery
      ensures searchQuery == q
    {
      searchQuery := q;
    }

    /** A category button selects the category it shows. */
    method SelectCategory(k: nat)
      requires k < |Categories(docs)|
      modifies this`selectedCategory
      ensures selectedCategory == Categories(docs)[k]
    {
      selectedCategory := Categories(docs)[k];
    }

    function CategoryList(): seq<string>
      reads this
    {
      Categories(docs)
    }

    function FilteredDocs(): seq<Documentation>
      reads this
    {
      Visible(docs, searchQuery, selectedCategory)
    }

    function ArticleContent(): Content<Documentation>
      reads this
    {
      Render(isLoading, FilteredDocs(), searchQuery, selectedCategory)
    }
  }

  /** A freshly mounted page shows nothing; after a rejected fetch it offers only the `"all"`
      category and shows the "no documentation available" text. */
  method MountWithFailedFetch() returns (page: DocumentationPage)
    ensures fresh(page)
    ensures page.CategoryList() == [AllCategory]
    ensures page.ArticleContent() == EmptyState(NoneAvailableMessage)
  {
    page := new DocumentationPage();
    assert page.ArticleContent() == Nothing;
    page.LoadDocumentation(Fail);
    assert Distinct(PresentCategories([])) == [];
  }
}
