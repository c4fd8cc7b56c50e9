/** The mentor directory: a mentor is shown when in the selected category
    (or 'all' is selected) and the search text occurs, ignoring case, in the
    name or in one of the expertise entries. Title and description are not
    searched. */
module Mentors {
  import Lists
  import Text

  datatype Mentor = Mentor(id: int, name: string, title: string, category: string,
                           expertise: seq<string>, availability: string,
                           hourlyRate: string, description: string)

  const AllCategories: string := "all"

  /** The filter predicate of `filteredMentors`. */
  predicate MatchesMentor(m: Mentor, selectedCategory: string, searchQuery: string)
  {
    && (selectedCategory == AllCategories || m.category == selectedCategory)
    && (Text.ContainsIgnoringCase(m.name, searchQuery) ||
        Lists.Any(m.expertise, (skill: string) => Text.ContainsIgnoringCase(skill, searchQuery)))
  }

  /** `filteredMentors`. */
  function FilteredMentors(mentors: seq<Mentor>, selectedCategory: string, searchQuery: string): (r: seq<Mentor>)
    ensures forall i :: 0 <= i < |r| ==> r[i] in mentors && MatchesMentor(r[i], selectedCategory, searchQuery)
    ensures forall i :: 0 <= i < |mentors| && MatchesMentor(mentors[i], selectedCategory, searchQuery) ==>
      mentors[i] in r
    ensures selectedCategory != AllCategories ==>
      forall i :: 0 <= i < |r| ==> r[i].category == selectedCategory
    ensures Lists.IsSubsequence(r, mentors)
  {
    var keep := (m: Mentor) => MatchesMentor(m, selectedCategory, searchQuery);
    Lists.FilterIsSubsequence(mentors, keep);
    Lists.Filter(mentors, keep)
  }

  /** Rewriting a mentor's title and description never changes whether the
      mentor is shown. */
  lemma TitleAndDescriptionNotSearched(m: Mentor, title: string, description: string,
                                       selectedCategory: string, searchQuery: string)
    ensures MatchesMentor(m.(title := title, description := description), selectedCategory, searchQuery)
            == MatchesMentor(m, selectedCategory, searchQuery)
  {
  }

  /** 'all' with an empty search shows every mentor, in the original order. */
  lemma AllWithEmptySearch(mentors: seq<Mentor>)
    ensures FilteredMentors(mentors, AllCategories, "") == mentors
  {
    forall m | m in mentors ensures MatchesMentor(m, AllCategories, "") {
      Text.EmptyQueryMatches(m.name);
    }
    Lists.FilterAllPass(mentors, (m: Mentor) => MatchesMentor(m, AllCategories, ""));
  }

  /** The mentor directory's state cells. */
  class MentorsPage {
    var selectedCategory: string
    var searchQuery: string

    constructor ()
      ensures selectedCategory == AllCategories && searchQuery == ""
    {
      selectedCategory := AllCategories;
      searchQuery := "";
    }

    /** The search box's `onChange`. */
    method SetSearchQuery(query: string)
      modifies this`searchQuery
      ensures searchQuery == query
    {
      searchQuery := query;
    }

    /** A category button's `onClick`. */
    method SelectCategory(category: string)
      modifies this`selectedCategory
      ensures selectedCategory == category
    {
      selectedCategory := category;
    }

    /** The mentor cards on screen: exactly the matching mentors, in order. */
    function Shown(mentors: seq<Mentor>): (r: seq<Mentor>)
      reads this
      ensures forall i :: 0 <= i < |r| ==> r[i] in mentors && MatchesMentor(r[i], selectedCategory, searchQuery)
      ensures forall i :: 0 <= i < |mentors| && MatchesMentor(mentors[i], selectedCategory, searchQuery) ==>
        mentors[i] in r
      ensures Lists.IsSubsequence(r, mentors)
    {
      FilteredMentors(mentors, selectedCategory, searchQuery)
    }
  }
}
