/** The course catalogue's category tabs: 'All' shows every course, any
    other tab the courses of exactly that category. */
module Courses {
  import Lists

  datatype Course = Course(id: int, title: string, category: string, duration: string,
                           level: string, icon: string, instructor: string, enrolled: nat)

  const AllCategories: string := "All"

  /** The tabs, in display order; the page starts on the first. */
  const Categories: seq<string> := ["All", "Development", "Data Science", "AI & ML", "Design", "Business"]

  const InitialCategory: string := "All"

  /** `filteredCourses`. */
  function FilteredCourses(courses: seq<Course>, selectedCategory: string): (r: seq<Course>)
    ensures selectedCategory == AllCategories ==> r == courses
    ensures selectedCategory != AllCategories ==>
      forall i :: 0 <= i < |r| ==> r[i].category == selectedCategory && r[i] in courses
    ensures selectedCategory != AllCategories ==>
      forall i :: 0 <= i < |courses| && courses[i].category == selectedCategory ==> courses[i] in r
    ensures Lists.IsSubsequence(r, courses)
  {
    if selectedCategory == AllCategories then
      Lists.SubsequenceOfItself(courses);
      courses
    else
      Lists.FilterIsSubsequence(courses, (c: Course) => c.category == selectedCategory);
      Lists.Filter(courses, (c: Course) => c.category == selectedCategory)
  }

  /** A category tab keeps each course of that category exactly as often as
      it appears, and no course of another category. */
  lemma CategoryCount(courses: seq<Course>, selectedCategory: string, c: Course)
    requires selectedCategory != AllCategories
    ensures multiset(FilteredCourses(courses, selectedCategory))[c] ==
            if c.category == selectedCategory then multiset(courses)[c] else 0
  {
    Lists.FilterCount(courses, (c: Course) => c.category == selectedCategory, c);
  }

  /** The page opens on the 'All' tab, which shows the whole catalogue. */
  lemma InitiallyEverything(courses: seq<Course>)
    ensures InitialCategory == Categories[0]
    ensures FilteredCourses(courses, InitialCategory) == courses
  {
  }

  /** The catalogue page's state cell. */
  class CoursesPage {
    var selectedCategory: string

    constructor ()
      ensures selectedCategory == InitialCategory
    {
      selectedCategory := InitialCategory;
    }

    /** A category tab's `onClick`. */
    method SelectCategory(category: string)
      modifies this`selectedCategory
      ensures selectedCategory == category
    {
      selectedCategory := category;
    }

    /** The course cards on screen: on the 'All' tab the whole catalogue,
        otherwise the courses of the selected tab, in catalogue order. */
    function Shown(courses: seq<Course>): (r: seq<Course>)
      reads this
      ensures selectedCategory == AllCategories ==> r == courses
      ensures forall i :: 0 <= i < |r| ==> r[i] in courses
      ensures selectedCategory != AllCategories ==>
        forall i :: 0 <= i < |r| ==> r[i].category == selectedCategory
      ensures Lists.IsSubsequence(r, courses)
    {
      FilteredCourses(courses, selectedCategory)
    }
  }
}
