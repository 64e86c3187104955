/** The record the menu diff keeps for one parent cell whose sub-menu changed. */
module Menu {
  import opened Common

  /**
   * A menu entry, reduced to what identifies it and its sub-menu. The menu manager's own use of
   * cells is not part of this model.
   */
  datatype MenuCell = MenuCell(title: string, cellId: int, parentCellId: int, subCells: Option<seq<MenuCell>>)

  /** The diff's score of an old list against a new one; its contents are not part of this model. */
  datatype RunScore = RunScore(score: int)

  /**
   * A SubCellCommandList: one parent cell (its title and id) with its old and new sub-cell lists
   * and their score. Every part may be null, and nothing changes it once built.
   */
  datatype SubCellCommandList = SubCellCommandList(
    menuTitle: Option<string>,
    parentId: Option<int>,
    listsScore: Option<RunScore>,
    oldList: Option<seq<MenuCell>>,
    newList: Option<seq<MenuCell>>)

  /** The constructor: takes any arguments, nulls included, and keeps each one as given. */
  function NewSubCellCommandList(menuTitle: Option<string>, parentId: Option<int>, listsScore: Option<RunScore>,
                                 oldList: Option<seq<MenuCell>>, newList: Option<seq<MenuCell>>): (r: SubCellCommandList)
    ensures r.menuTitle == menuTitle && r.parentId == parentId && r.listsScore == listsScore
    ensures r.oldList == oldList && r.newList == newList
  {
    SubCellCommandList(menuTitle, parentId, listsScore, oldList, newList)
  }
}
