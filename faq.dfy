/** The FAQ page: question groups filtered by category and search text, and
    the list of expanded question ids that a click on a question toggles. */
module Faq {
  import Lists
  import Text

  datatype Question = Question(id: string, question: string, answer: string)

  datatype FaqGroup = FaqGroup(category: string, questions: seq<Question>)

  const AllCategories: string := "all"

  /** `expandedQuestions` without `id`, the others in their order. */
  function Without(expanded: seq<string>, id: string): (r: seq<string>)
    ensures id !in r
    ensures forall x :: x != id ==> (x in r <==> x in expanded)
    ensures Lists.IsSubsequence(r, expanded)
  {
    Lists.FilterIsSubsequence(expanded, (x: string) => x != id);
    Lists.Filter(expanded, (x: string) => x != id)
  }

  /** The updater of `toggleQuestion`: remove the id if present, otherwise
      append it. */
  function Toggled(expanded: seq<string>, id: string): (r: seq<string>)
    ensures id in r <==> id !in expanded
    ensures forall x :: x != id ==> (x in r <==> x in expanded)
    ensures id in expanded ==> Lists.IsSubsequence(r, expanded)
    ensures id !in expanded ==> r == expanded + [id]
  {
    if id in expanded then Without(expanded, id) else expanded + [id]
  }

  /** Toggling keeps the expanded list free of duplicates. */
  lemma ToggledKeepsNoDuplicates(expanded: seq<string>, id: string)
    requires Lists.NoDuplicates(expanded)
    ensures Lists.NoDuplicates(Toggled(expanded, id))
  {
    if id in expanded {
      Lists.FilterKeepsNoDuplicates(expanded, (x: string) => x != id);
    } else {
      var r := expanded + [id];
      forall i, j | 0 <= i < j < |r| ensures r[i] != r[j] {
        if j == |expanded| {
          assert r[i] == expanded[i];
        }
      }
    }
  }

  /** Toggling an id twice restores which ids are expanded; when the id was
      collapsed it restores the list exactly. */
  lemma ToggleTwice(expanded: seq<string>, id: string)
    ensures forall x :: x in Toggled(Toggled(expanded, id), id) <==> x in expanded
    ensures id !in expanded ==> Toggled(Toggled(expanded, id), id) == expanded
  {
    if id !in expanded {
      var p := (x: string) => x != id;
      Lists.FilterConcat(expanded, [id], p);
      Lists.FilterAllPass(expanded, p);
      assert Lists.Filter([id], p) == [];
    }
  }

  /** The group test of `filteredFAQs`: the category must match unless 'all'
      is selected, and a non-empty search keeps the whole group when some
      question or answer contains it. */
  predicate KeepGroup(g: FaqGroup, selectedCategory: string, searchQuery: string)
  {
    if selectedCategory != AllCategories && g.category != selectedCategory then false
    else if searchQuery != "" then
      Lists.Any(g.questions, (q: Question) =>
        Text.ContainsIgnoringCase(q.question, searchQuery) || Text.ContainsIgnoringCase(q.answer, searchQuery))
    else true
  }

  /** `filteredFAQs`: whole groups, never individual questions, are kept or dropped. */
  function FilteredFaqs(groups: seq<FaqGroup>, selectedCategory: string, searchQuery: string): (r: seq<FaqGroup>)
    ensures forall i :: 0 <= i < |r| ==> r[i] in groups && KeepGroup(r[i], selectedCategory, searchQuery)
    ensures forall i :: 0 <= i < |groups| && KeepGroup(groups[i], selectedCategory, searchQuery) ==>
      groups[i] in r
    ensures selectedCategory != AllCategories ==>
      forall i :: 0 <= i < |r| ==> r[i].category == selectedCategory
    ensures Lists.IsSubsequence(r, groups)
  {
    var keep := (g: FaqGroup) => KeepGroup(g, selectedCategory, searchQuery);
    Lists.FilterIsSubsequence(groups, keep);
    Lists.Filter(groups, keep)
  }

  /** 'all' with an empty search shows the FAQ unchanged. */
  lemma AllWithEmptySearch(groups: seq<FaqGroup>)
    ensures FilteredFaqs(groups, AllCategories, "") == groups
  {
    Lists.FilterAllPass(groups, (g: FaqGroup) => KeepGroup(g, AllCategories, ""));
  }

  /** The explicit empty-search shortcut differs from searching for "" only
      for a group with no questions: `some` over no questions is false, yet
      the shortcut keeps such a group. */
  lemma EmptySearchShortcut(g: FaqGroup)
    ensures Lists.Any(g.questions, (q: Question) =>
              Text.ContainsIgnoringCase(q.question, "") || Text.ContainsIgnoringCase(q.answer, ""))
            <==> g.questions != []
  {
    if g.questions != [] {
      Text.EmptyQueryMatches(g.questions[0].question);
    }
  }

  /** The FAQ page's state cells. */
  class FaqPage {
    var searchQuery: string
    var selectedCategory: string
    var expandedQuestions: seq<string>

    ghost predicate Valid()
      reads this
    {
      Lists.NoDuplicates(expandedQuestions)
    }

    constructor ()
      ensures Valid()
      ensures searchQuery == "" && selectedCategory == AllCategories && expandedQuestions == []
    {
      searchQuery := "";
      selectedCategory := AllCategories;
      expandedQuestions := [];
    }

    /** The search box's `onChange`. */
    method SetSearchQuery(query: string)
      modifies this`searchQuery
      ensures searchQuery == query
    {
      searchQuery := query;
    }

    /** A category button's `onClick`. */
    method SelectCategory(category: string)
      modifies this`selectedCategory
      ensures selectedCategory == category
    {
      selectedCategory := category;
    }

    /** `toggleQuestion(id)`, a click on a question card. */
    method ToggleQuestion(id: string)
      requires Valid()
      modifies this`expandedQuestions
      ensures Valid()
      ensures expandedQuestions == Toggled(old(expandedQuestions), id)
      ensures IsExpanded(id) <==> !old(IsExpanded(id))
      ensures forall other :: other != id ==> (IsExpanded(other) <==> old(IsExpanded(other)))
    {
      ToggledKeepsNoDuplicates(expandedQuestions, id);
      expandedQuestions := Toggled(expandedQuestions, id);
    }

    /** The groups on screen: exactly the groups kept for the current
        category and query, in order. */
    function Shown(groups: seq<FaqGroup>): (r: seq<FaqGroup>)
      reads this
      ensures forall i :: 0 <= i < |r| ==> r[i] in groups && KeepGroup(r[i], selectedCategory, searchQuery)
      ensures forall i :: 0 <= i < |groups| && KeepGroup(groups[i], selectedCategory, searchQuery) ==>
        groups[i] in r
      ensures Lists.IsSubsequence(r, groups)
    {
      FilteredFaqs(groups, selectedCategory, searchQuery)
    }

    /** Whether a question shows its answer. */
    predicate IsExpanded(id: string)
      reads this
    {
      id in expandedQuestions
    }
  }
}
