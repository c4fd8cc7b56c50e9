/** The learning-path cards: a click expands a card, a second click on the
    same card collapses it, so at most one card is open; the open card's
    button reads 'Start Path' for an unstarted path. */
module LearningPaths {
  import opened Wrappers

  datatype Milestone = Milestone(title: string, completed: bool)

  datatype LearningPath = LearningPath(id: int, title: string, description: string, duration: string,
                                       courses: nat, progress: nat, icon: string,
                                       skills: seq<string>, milestones: seq<Milestone>)

  /** The card `onClick` on the card of the path with id `id`:
      `selectedPath === path.id ? null : path.id`. */
  function Clicked(selected: Option<int>, id: int): (r: Option<int>)
    ensures selected == Some(id) ==> r == None
    ensures selected != Some(id) ==> r == Some(id)
  {
    if selected == Some(id) then None else Some(id)
  }

  /** `$isExpanded` / `$isVisible` of a card. */
  predicate IsExpanded(selected: Option<int>, id: int)
  {
    selected == Some(id)
  }

  /** Two expanded cards are the same card. */
  lemma AtMostOneExpanded(selected: Option<int>, p: int, q: int)
    requires IsExpanded(selected, p) && IsExpanded(selected, q)
    ensures p == q
  {
  }

  /** After a click, the clicked card is open exactly when it was closed, and
      every other card is closed. */
  lemma ClickOpensOnlyTarget(selected: Option<int>, id: int, other: int)
    requires other != id
    ensures IsExpanded(Clicked(selected, id), id) <==> !IsExpanded(selected, id)
    ensures !IsExpanded(Clicked(selected, id), other)
  {
  }

  /** Two clicks on the same card leave that card as it was and every
      other card closed. */
  lemma ClickTwice(selected: Option<int>, id: int)
    ensures Clicked(Clicked(selected, id), id) == if selected == Some(id) then Some(id) else None
  {
  }

  /** The open card's button. */
  function ContinueLabel(path: LearningPath): (s: string)
    ensures s == "Start Path" <==> path.progress == 0
    ensures s == "Continue Learning" <==> path.progress != 0
  {
    if path.progress == 0 then "Start Path" else "Continue Learning"
  }

  /** The learning-paths page's state cell. */
  class LearningPathsPage {
    var selectedPath: Option<int>

    constructor ()
      ensures selectedPath == None
    {
      selectedPath := None;
    }

    /** A click on the card of path `id`. */
    method ClickPath(id: int)
      modifies this`selectedPath
      ensures selectedPath == Clicked(old(selectedPath), id)
    {
      selectedPath := Clicked(selectedPath, id);
    }
  }
}
