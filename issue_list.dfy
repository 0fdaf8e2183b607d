/**
 * The issue list page: a paged list of issues searched by `projectName`, whose
 * priority column shows each issue's priority through the label lookup.
 */
module IssueList {
  import opened Text
  import opened IssueTypes
  import IssueCreate
  import Paging

  /** The page as it mounts: the shared paged list, with the keyword sent as `projectName`. */
  method NewIssueListPage() returns (p: Paging.PagedList<Issue>)
    ensures fresh(p)
    ensures p.filterKey == "projectName" && p.pageSize == 10
    ensures p.items == [] && p.page == 1 && p.totalPages == 1 && p.totalCount == 0
    ensures p.keyword == "" && p.searchInput == "" && !p.loading
  {
    p := new Paging.PagedList("projectName");
  }

  /**
   * The priority cell as the page computes it: the issue's priority is the
   * string `'1'`, `'2'` or `'3'`, and it is handed to the lookup unchanged.
   */
  function PriorityCellAsWritten(issue: Issue): PriorityLabel {
    LookupLabel(Str(issue.issuePriority))
  }

  /** No string equals a number strictly, so the cell always shows the raw code. */
  lemma PriorityCellAsWrittenShowsCode(issue: Issue)
    ensures PriorityCellAsWritten(issue) == Raw(Str(issue.issuePriority))
    ensures PriorityCellAsWritten(issue) != GetPriorityLabel(NumberOf(issue.issuePriority))
  {
  }

  /** The priority cell with the code converted to the number the lookup is declared to take. */
  function PriorityCell(issue: Issue): PriorityLabel {
    GetPriorityLabel(NumberOf(issue.issuePriority))
  }

  /**
   * The corrected cell shows, for every code, the same label that the
   * creation page's priority `<select>` shows for that code.
   */
  lemma PriorityCellMatchesCreateOptions(issue: Issue)
    ensures exists k :: 0 <= k < |IssueCreate.PriorityChoices| &&
                        IssueCreate.PriorityChoices[k].0 == issue.issuePriority &&
                        PriorityCell(issue) == Label(IssueCreate.PriorityChoices[k].1)
  {
    var code := issue.issuePriority;
    var choices := IssueCreate.PriorityChoices;
    if code == "1" {
      assert NumberOf(code) == 1;
      assert choices[0].0 == code && PriorityCell(issue) == Label(choices[0].1);
    } else if code == "2" {
      assert NumberOf(code) == 2;
      assert choices[1].0 == code && PriorityCell(issue) == Label(choices[1].1);
    } else {
      assert NumberOf(code) == 3;
      assert choices[2].0 == code && PriorityCell(issue) == Label(choices[2].1);
    }
  }
}
