/**
 * Discovery helpers (DiscoveryUtils.java): the tab position of each sort
 * and back, whether a category overlay is light, and filling in the root
 * category of a featured first project.
 */
module DiscoveryUtils {
  import opened Common

  /** DiscoveryParams.Sort, in declaration order. */
  datatype Sort = Home | Popular | Newest | EndingSoon | MostFunded

  /** Sort.values(): every sort, in declaration order. */
  const Sorts: seq<Sort> := [Home, Popular, Newest, EndingSoon, MostFunded]

  /** The discovery tab that shows `sort`; a missing sort shows the first tab. */
  function PositionFromSort(sort: Option<Sort>): (position: nat)
    ensures position < |Sorts|
    ensures sort.Some? ==> Sorts[position] == sort.value
    ensures sort.None? ==> position == 0
  {
    match sort
    case None => 0
    case Some(s) =>
      match s
      case Home => 0
      case Popular => 1
      case Newest => 2
      case EndingSoon => 3
      case MostFunded => 4
  }

  /** The sort a tab shows; None where `values()[position]` throws (a position out of range). */
  function SortFromPosition(position: int): (sort: Option<Sort>)
    ensures sort.Some? <==> 0 <= position < |Sorts|
  {
    if 0 <= position < |Sorts| then Some(Sorts[position]) else None
  }

  /** Going from a sort to its tab and back gives the same sort. */
  lemma SortPositionRoundTrip(sort: Sort)
    ensures SortFromPosition(PositionFromSort(Some(sort))) == Some(sort)
  {
  }

  /** Going from a tab to its sort and back gives the same tab. */
  lemma PositionSortRoundTrip(position: int)
    requires 0 <= position < |Sorts|
    ensures PositionFromSort(SortFromPosition(position)) == position
  {
  }

  /** A category; `isRoot` stands for Category.isRoot(). */
  datatype Category = Category(
    id: int,
    parentId: Option<int>,
    parent: Option<Category>,
    isRoot: bool)

  /** Category.overlayShouldBeLight(), as a function of the category's id, parent id and whether it is a root. */
  type OverlayRule = (int, Option<int>, bool) -> bool

  /** A project; `isFeaturedToday` stands for Project.isFeaturedToday(). */
  datatype Project = Project(id: int, category: Option<Category>, isFeaturedToday: bool)

  /** The overlay is light when there is no category, otherwise as the category says. */
  predicate OverlayShouldBeLight(category: Option<Category>, light: OverlayRule)
  {
    category.None? || light(category.value.id, category.value.parentId, category.value.isRoot)
  }

  predicate ProjectNeedsRootCategory(project: Project, category: Category)
  {
    !category.isRoot && category.parent.None? && project.isFeaturedToday
  }

  /** The position of the first category in `roots` with the given id, if any. */
  function FirstWithId(roots: seq<Category>, id: int): (k: Option<nat>)
    ensures k.Some? ==> k.value < |roots| && roots[k.value].id == id
    ensures k.Some? ==> forall j :: 0 <= j < k.value ==> roots[j].id != id
    ensures k.None? ==> forall j :: 0 <= j < |roots| ==> roots[j].id != id
  {
    if roots == [] then None
    else if roots[0].id == id then Some(0)
    else
      match FirstWithId(roots[1..], id)
      case None => None
      case Some(k) => Some(k + 1)
  }

  /** The outcome of fillRootCategoryForFeaturedProjects: a list, or the exception `single()` throws when no root matches. */
  datatype Fill = Filled(projects: seq<Project>) | NoSuchRoot

  /** `project` with `root` set as the parent of its category. */
  function WithRoot(project: Project, root: Category): Project
    requires project.category.Some?
  {
    project.(category := Some(project.category.value.(parent := Some(root))))
  }

  function FillRootCategoryForFeaturedProjects(projects: seq<Project>, roots: seq<Category>): Fill
  {
    if |projects| == 0 then Filled([])
    else
      var first := projects[0];
      if first.category.None? then Filled(projects)
      else
        var category := first.category.value;
        if category.parentId.None? then Filled(projects)
        else if !ProjectNeedsRootCategory(first, category) then Filled(projects)
        else
          match FirstWithId(roots, category.parentId.value)
          case None => NoSuchRoot
          case Some(k) => Filled(projects[0 := WithRoot(first, roots[k])])
  }

  /** The first project is featured, has a category with a parent id, and its category lacks its root. */
  predicate NeedsFill(projects: seq<Project>)
  {
    |projects| > 0 && projects[0].category.Some? && projects[0].category.value.parentId.Some? &&
    ProjectNeedsRootCategory(projects[0], projects[0].category.value)
  }

  /** Whatever happens to the first project, the list keeps its length and every later project. */
  lemma FillKeepsLaterProjects(projects: seq<Project>, roots: seq<Category>)
    ensures var r := FillRootCategoryForFeaturedProjects(projects, roots);
      r.Filled? ==> |r.projects| == |projects| && forall i :: 1 <= i < |projects| ==> r.projects[i] == projects[i]
  {
  }

  /** An empty list, or a first project that needs no root, comes back unchanged. */
  lemma FillLeavesListAloneUnlessNeeded(projects: seq<Project>, roots: seq<Category>)
    requires !NeedsFill(projects)
    ensures FillRootCategoryForFeaturedProjects(projects, roots) == Filled(projects)
    ensures |projects| == 0 ==> FillRootCategoryForFeaturedProjects(projects, roots) == Filled([])
  {
  }

  /**
   * When the first project needs its root, the call fails exactly when no
   * root has the category's parent id; otherwise the first such root becomes
   * the parent of the first project's category, and nothing else changes.
   */
  lemma FillSetsFirstMatchingRoot(projects: seq<Project>, roots: seq<Category>)
    requires NeedsFill(projects)
    ensures var pid := projects[0].category.value.parentId.value;
      var r := FillRootCategoryForFeaturedProjects(projects, roots);
      (r.NoSuchRoot? <==> forall j :: 0 <= j < |roots| ==> roots[j].id != pid) &&
      (r.Filled? ==> exists k :: 0 <= k < |roots| && roots[k].id == pid &&
                       (forall j :: 0 <= j < k ==> roots[j].id != pid) &&
                       r.projects == [WithRoot(projects[0], roots[k])] + projects[1..])
  {
    var pid := projects[0].category.value.parentId.value;
    var r := FillRootCategoryForFeaturedProjects(projects, roots);
    match FirstWithId(roots, pid)
    case None =>
    case Some(k) =>
      assert r.projects == [WithRoot(projects[0], roots[k])] + projects[1..];
  }

  /** After filling, the first project no longer needs its root, so filling again changes nothing. */
  lemma FillIsIdempotent(projects: seq<Project>, roots: seq<Category>)
    requires FillRootCategoryForFeaturedProjects(projects, roots).Filled?
    ensures var once := FillRootCategoryForFeaturedProjects(projects, roots).projects;
      FillRootCategoryForFeaturedProjects(once, roots) == Filled(once)
  {
    var once := FillRootCategoryForFeaturedProjects(projects, roots).projects;
    if NeedsFill(projects) {
      assert !NeedsFill(once);
    }
    FillLeavesListAloneUnlessNeeded(once, roots);
  }

  /** Filling in a root category never changes whether any project's overlay is light. */
  lemma FillKeepsOverlay(projects: seq<Project>, roots: seq<Category>, light: OverlayRule)
    requires FillRootCategoryForFeaturedProjects(projects, roots).Filled?
    ensures var filled := FillRootCategoryForFeaturedProjects(projects, roots).projects;
      |filled| == |projects| &&
      forall i :: 0 <= i < |projects| ==>
        OverlayShouldBeLight(filled[i].category, light) == OverlayShouldBeLight(projects[i].category, light)
  {
    var filled := FillRootCategoryForFeaturedProjects(projects, roots).projects;
    FillKeepsLaterProjects(projects, roots);
    if NeedsFill(projects) {
      FillSetsFirstMatchingRoot(projects, roots);
    } else {
      FillLeavesListAloneUnlessNeeded(projects, roots);
    }
  }
}
