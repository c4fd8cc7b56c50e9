/** The help centre's article list: an article is shown when it is in the
    selected category (or 'all' is selected) and its title or description
    contains the search text, ignoring case. */
module HelpCenter {
  import Lists
  import Text

  datatype Article = Article(id: int, category: string, title: string, description: string,
                             views: nat, helpful: nat)

  const AllCategories: string := "all"

  /** The filter predicate of `filteredArticles`. */
  predicate MatchesArticle(a: Article, selectedCategory: string, searchQuery: string)
  {
    && (selectedCategory == AllCategories || a.category == selectedCategory)
    && (Text.ContainsIgnoringCase(a.title, searchQuery) || Text.ContainsIgnoringCase(a.description, searchQuery))
  }

  /** `filteredArticles`. */
  function FilteredArticles(articles: seq<Article>, selectedCategory: string, searchQuery: string): (r: seq<Article>)
    ensures forall i :: 0 <= i < |r| ==> r[i] in articles && MatchesArticle(r[i], selectedCategory, searchQuery)
    ensures forall i :: 0 <= i < |articles| && MatchesArticle(articles[i], selectedCategory, searchQuery) ==>
      articles[i] in r
    ensures Lists.IsSubsequence(r, articles)
  {
    var keep := (a: Article) => MatchesArticle(a, selectedCategory, searchQuery);
    Lists.FilterIsSubsequence(articles, keep);
    Lists.Filter(articles, keep)
  }

  /** An empty search matches every article, so only the category test is left. */
  lemma EmptySearchMatchesCategory(a: Article, selectedCategory: string)
    ensures MatchesArticle(a, selectedCategory, "") <==>
            selectedCategory == AllCategories || a.category == selectedCategory
  {
    Text.EmptyQueryMatches(a.title);
  }

  /** 'all' with an empty search shows every article, in the original order. */
  lemma AllWithEmptySearch(articles: seq<Article>)
    ensures FilteredArticles(articles, AllCategories, "") == articles
  {
    forall a | a in articles ensures MatchesArticle(a, AllCategories, "") {
      EmptySearchMatchesCategory(a, AllCategories);
    }
    Lists.FilterAllPass(articles, (a: Article) => MatchesArticle(a, AllCategories, ""));
  }

  /** The help centre page's state cells. */
  class HelpCenterPage {
    var searchQuery: string
    var selectedCategory: string

    constructor ()
      ensures searchQuery == "" && selectedCategory == AllCategories
    {
      searchQuery := "";
      selectedCategory := AllCategories;
    }

    /** The search box's `onChange`. */
    method SetSearchQuery(query: string)
      modifies this`searchQuery
      ensures searchQuery == query
    {
      searchQuery := query;
    }

    /** A category button's `onClick`. */
    method SelectCategory(category: string)
      modifies this`selectedCategory
      ensures selectedCategory == category
    {
      selectedCategory := category;
    }

    /** The article cards on screen: exactly the matching articles, in order. */
    function Shown(articles: seq<Article>): (r: seq<Article>)
      reads this
      ensures forall i :: 0 <= i < |r| ==> r[i] in articles && MatchesArticle(r[i], selectedCategory, searchQuery)
      ensures forall i :: 0 <= i < |articles| && MatchesArticle(articles[i], selectedCategory, searchQuery) ==>
        articles[i] in r
      ensures Lists.IsSubsequence(r, articles)
    {
      FilteredArticles(articles, selectedCategory, searchQuery)
    }
  }
}
