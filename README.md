# Itschedule front end: member reconciliation, project cascade, paging and priority labels

This project models, in Dafny, the four pieces of state logic in the browser
console for projects, issues and board posts:

- **Project-member reconciliation** on the board-creation page
  (`BoardCreatePage.tsx`, module `Membership`). The page holds the universe of
  users, the members chosen so far and the users still available. The
  available list is never patched: after each add or remove it is re-derived
  as "the universe minus every user whose `userId` is a member's", in universe
  order (`Derive`). The class `BoardForm` keeps `availableUsers ==
  Derive(currentMembers, allUsers)` and "no duplicate `userId` among members"
  across the load, add and remove transitions.
- **Project → assignee cascade and save checks** on the issue-creation page
  (`IssueCreatePage.tsx`, module `IssueCreate`). Choosing a project loads
  that project's members as the assignee choices and clears the assignee;
  `save` rejects a blank title, then a missing project, then a missing
  assignee.
- **Paging and search** on the board list and the issue list
  (`BoardPage.tsx`, `IssueListPage.tsx`). The two pages run the same code on
  different item types and under different names for the search field, so
  both are one generic class `Paging.PagedList<T>`, created by
  `BoardList.NewBoardPage` (field `name`) and `IssueList.NewIssueListPage`
  (field `projectName`). The rows for `Paging` below cite `BoardPage.tsx`; the
  same code sits in `IssueListPage.tsx` at lines 20-25 (initial state), 28-50
  (`loadIssues`), 57-61 (`onSearchSubmit`), 63-66 (`goPage`) and 170 and 186
  (the buttons' `disabled` classes).
- **Priority labels** (`issueTypes.ts`, module `IssueTypes`). The priority
  value is looked up in a three-entry table, and the input comes back
  unchanged when no entry matches.

Every load is a parameter of type `Fetch<T>`: either `Received(body)` or
`Failed`. The two `save` handlers instead return the request body they would
post; what the server answers to a submit is not modelled. A list load is split into `BeginLoad`, which raises `loading` and
returns the request, and `FinishLoad`, which applies the response. React
re-runs an effect only when one of its dependencies actually changes. So
`GoPage`, `OnSearchSubmit` and `FinishLoad` return `reload`, which says whether
the page or the keyword changed and the list will load again.
`IssueForm.SelectProject` runs the project effect only when the parsed choice
differs from the current one. `BoardList.BrowseAndSearch` is a client that
drives a board list through a load, two page moves, a failed load and a search,
and asserts what the contracts promise at each step.

Points where the code behaves differently from what one might expect of a
membership editor:
- Add and remove re-derive the available list from the universe. Nothing
  patches it incrementally. So a removed member reappears at its universe
  position, not at the end: after add B, add A, remove B over `[A, B, C]`, the
  available list is `[B, C]` (`Membership.CreationFlow`). `DeriveAfterAppend`
  proves that an incremental patch for add would agree with the
  re-derivation.
- `addMember` has no duplicate guard. A duplicate is impossible only because
  the add buttons are rendered from the available list. That is the
  precondition of `AddMember` (the user is an available user), and it also
  keeps every member a user of the universe.
- No page seeds the members from an existing project, reloads the universe
  mid-session or reconciles stale user records. None of these is modelled.

## Model

| member | source | states |
|---|---|---|
| `Seqs.FindIndex` | src/app/pages/issue/issueTypes.ts:41 | `find` stops at the first element satisfying the predicate; it finds nothing exactly when no element satisfies it |
| `Text.Trim` | src/app/pages/project-board/BoardCreatePage.tsx:67 | `trim` is the piece of the string between a whitespace-only prefix and a whitespace-only suffix; it is empty exactly when every character is JavaScript whitespace; otherwise it neither starts nor ends with whitespace |
| `Text.NumberOfIntToDecimal` | src/app/pages/issue/IssueCreatePage.tsx:157-166 | `Number` applied to the `String` rendering of an integer option value gives that integer back |
| `Membership.Derive` | src/app/pages/project-board/BoardCreatePage.tsx:48-50 | the available users are a subsequence of the universe (universe order); a user is in it iff it is in the universe and no member has its `userId`, so every universe user is either available or has its `userId` among the members |
| `Membership.DeriveCounts` | src/app/pages/project-board/BoardCreatePage.tsx:48-50 | each universe entry of a non-member appears in the available list exactly as often as in the universe, and an entry of a member not at all; with the subsequence property this is exactly the filtered universe |
| `Membership.RemoveId` | src/app/pages/project-board/BoardCreatePage.tsx:61 | the filtered members are a subsequence of the old ones (relative order kept); a user stays iff its `userId` differs from the removed one |
| `Membership.RemoveIdCounts` | src/app/pages/project-board/BoardCreatePage.tsx:61 | each member with another `userId` is kept exactly as often as before; every entry with the removed `userId` is dropped |
| `Membership.DeriveWithoutMembers` | src/app/pages/project-board/BoardCreatePage.tsx:35-37 | with no members the derived list is the whole universe, so setting the available list to the fetched list on load matches the derivation |
| `Membership.DeriveAfterAppend` | src/app/pages/project-board/BoardCreatePage.tsx:54-57 | re-deriving after appending a user equals dropping that user's `userId` from the previous available list |
| `Membership.RemoveAfterAppend` | src/app/pages/project-board/BoardCreatePage.tsx:54-64 | removing by `userId` right after appending a user whose `userId` was new gives back the old members exactly |
| `Membership.AddThenRemoveRestores` | src/app/pages/project-board/BoardCreatePage.tsx:54-64 | add then remove of the same non-member restores both the members and the derived available list |
| `Membership.AppendKeepsNoDuplicates` | src/app/pages/project-board/BoardCreatePage.tsx:54-58 | appending a user whose `userId` is not a member's keeps the `userId`s of the members distinct |
| `Membership.RemoveKeepsNoDuplicates` | src/app/pages/project-board/BoardCreatePage.tsx:60-64 | removing by `userId` keeps the `userId`s of the members distinct |
| `Membership.CreationFlow` | src/app/pages/project-board/BoardCreatePage.tsx:54-64 | over universe `[A, B, C]`: add B gives available `[A, C]`, add A gives `[C]`, remove B gives members `[A]` and available `[B, C]` (B back at its universe position) |
| `Membership.BoardForm.constructor` | src/app/pages/project-board/BoardCreatePage.tsx:17-25 | the page mounts with every field empty and the invariant holding |
| `Membership.BoardForm.LoadAllUsers` | src/app/pages/project-board/BoardCreatePage.tsx:28-41 | on success the universe and the available list both become the fetched list, or `[]` when `userAllList` is absent; on failure nothing changes; the invariant holds after |
| `Membership.BoardForm.RefreshAvailableUsers` | src/app/pages/project-board/BoardCreatePage.tsx:44-52 | the available list becomes the derived one for the given members and universe |
| `Membership.BoardForm.AddMember` | src/app/pages/project-board/BoardCreatePage.tsx:54-58 | for a user offered by an add button (an available user), the user is appended with earlier members unchanged; the universe is unchanged; the available list loses that `userId`; the invariant (available list derived, distinct `userId`s, every member a universe user) is kept |
| `Membership.BoardForm.RemoveMember` | src/app/pages/project-board/BoardCreatePage.tsx:60-64 | every member with the user's `userId` is dropped and the others keep their order; the universe is unchanged; the available list is re-derived |
| `Membership.BoardForm.Save` | src/app/pages/project-board/BoardCreatePage.tsx:66-91 | a name that is blank after trimming sends nothing; otherwise the payload carries the form fields and the members verbatim |
| `IssueTypes.LookupLabel` | src/app/pages/issue/issueTypes.ts:40-43 | the result is the input itself iff no option's value strictly equals it; otherwise it is the label of a matching option |
| `IssueTypes.GetPriorityLabel` | src/app/pages/issue/issueTypes.ts:34-43 | 1, 2 and 3 give 상, 중 and 하; any other number comes back as itself |
| `IssueTypes.PriorityTableInjective` | src/app/pages/issue/issueTypes.ts:34-38 | the table's values are distinct, so at most one option matches, and its labels are distinct |
| `IssueTypes.LabelDeterminesValue` | src/app/pages/issue/issueTypes.ts:40-43 | two numbers with the same text label are equal (label to value is injective) |
| `IssueCreate.FindProject` | src/app/pages/issue/IssueCreatePage.tsx:77 | the index of the first project with the id, or nothing exactly when no project has it |
| `IssueCreate.AfterProjectChange` | src/app/pages/issue/IssueCreatePage.tsx:70-83 | a falsy choice ('' or 0) clears the member list and the assignee; a listed id takes the first matching project's members (or `[]`) and clears the assignee; an unlisted id keeps both |
| `IssueCreate.ParseChoice` | src/app/pages/issue/IssueCreatePage.tsx:157-160 | the select's value maps to "no project" exactly when it is the empty string, and otherwise to the project id `Number(val)` |
| `IssueCreate.ParseOptionValue` | src/app/pages/issue/IssueCreatePage.tsx:157-166 | choosing a rendered project option selects exactly that option's project id |
| `IssueCreate.IssueForm.constructor` | src/app/pages/issue/IssueCreatePage.tsx:29-39 | the page mounts with no project, no members, no assignee and priority '2' |
| `IssueCreate.IssueForm.SyncMembers` | src/app/pages/issue/IssueCreatePage.tsx:70-83 | the project effect sets the member list and the assignee as `AfterProjectChange` describes |
| `IssueCreate.IssueForm.LoadProjectList` | src/app/pages/issue/IssueCreatePage.tsx:44-65 | on success the list is stored; a non-empty list chooses its first project, with that project's members (none if its id is 0, which is falsy) and no assignee; an empty list keeps the choice and clears only a falsy one; a failure changes nothing |
| `IssueCreate.IssueForm.SelectProject` | src/app/pages/issue/IssueCreatePage.tsx:154-160 | the parsed value becomes the choice; the member list and assignee follow the project effect only if the choice changed |
| `IssueCreate.IssueForm.Save` | src/app/pages/issue/IssueCreatePage.tsx:88-124 | a blank title, then a falsy project, then an empty assignee rejects with that reason and sends nothing; it sends exactly when all three pass, with the chosen project id and assignee in the payload |
| `Paging.Request` | src/app/pages/project-board/BoardPage.tsx:40-46 | the request carries the page and size, and the search field only when the keyword is non-empty, then holding the keyword |
| `Paging.DisabledButtonsAreIgnored` | src/app/pages/project-board/BoardPage.tsx:181-202 | when the previous (next) button is disabled, `goPage(page - 1)` (`goPage(page + 1)`) would be ignored |
| `Paging.ButtonsMatchGoPage` | src/app/pages/project-board/BoardPage.tsx:76-79 | on a page in 1..totalPages, each button is enabled exactly when `goPage` accepts its target |
| `Paging.PagedList.constructor` | src/app/pages/project-board/BoardPage.tsx:28-35 | the list mounts on page 1 of 1, with no items, a count of 0, an empty keyword and not loading |
| `Paging.PagedList.GoPage` | src/app/pages/project-board/BoardPage.tsx:76-79 | a page outside 1..totalPages changes nothing; otherwise it becomes the page; a reload follows exactly when the page changed |
| `Paging.PagedList.OnSearchSubmit` | src/app/pages/project-board/BoardPage.tsx:70-74 | the page becomes 1 and the keyword becomes the search input; a reload follows exactly when either changed |
| `Paging.PagedList.BeginLoad` | src/app/pages/project-board/BoardPage.tsx:37-50 | `loading` is raised and the request for the current page and keyword is sent |
| `Paging.PagedList.FinishLoad` | src/app/pages/project-board/BoardPage.tsx:53-61 | a response replaces the items, page, page count and total count; a failure keeps them; `loading` is false after either |
| `BoardList.NewBoardPage` | src/app/pages/project-board/BoardPage.tsx:28-35 | the board list starts in the initial paging state and searches by `name` |
| `IssueList.NewIssueListPage` | src/app/pages/issue/IssueListPage.tsx:19-26 | the issue list starts on page 1 of 1 with a count of 0 and searches by `projectName` |
| `IssueList.PriorityCellAsWrittenShowsCode` | src/app/pages/issue/IssueListPage.tsx:153 | the priority cell as written shows the raw code string, never the label the number lookup gives |
| `IssueList.PriorityCellMatchesCreateOptions` | src/app/pages/issue/IssueListPage.tsx:153 | with the code converted to a number, the cell shows the same label as the creation page's priority option for that code |

## Findings

| source | as written | input that shows it | evidently intended | confidence | as-written member | corrected member |
|---|---|---|---|---|---|---|
| src/app/pages/issue/IssueListPage.tsx:153 | the cell passes `issue.issuePriority`, typed as the string '1', '2' or '3', to `getPriorityLabel`, whose `find` compares it with `===` against the numeric values 1, 2 and 3 | an issue with priority `'1'` shows `1` instead of 상 | the label of the matching option, as the creation page's priority select shows it | not executed; medium: it holds if the server sends the priority as the string the `Issue` type declares | `IssueList.PriorityCellAsWrittenShowsCode` | `IssueList.PriorityCellMatchesCreateOptions` |

## Left out

- HTTP transport, `withCredentials`, URLs, `alert`, `navigate`, `console.error` and all rendering. Loads are `Fetch` parameters. The save handlers return the request body and do not model the submit's outcome: a failed submit only shows an alert, and a successful one navigates away.
- React's asynchronous ordering: a slow response landing after a newer one, and stale closures or double clicks around state setters. Every transition is modelled as atomic.
- Input bindings (`setTitle`, `setName`, `setSearchInput`, `setAssigneeId`, the priority and date inputs). They are plain writes to the classes' public fields.
- `Membership.BoardForm.LoadAllUsers`: requires that there are no members yet. The load runs once on mount, and no member can be added before it completes because the add buttons come from the still-empty available list.
- `IssueCreate.ParseChoice`: decodes only the integer numerals that `String(projectId)` produces. The select offers no other values, so other JavaScript `Number` syntaxes (surrounding whitespace, hex, exponents, fractions, `NaN`) are not modelled.
- Numbers are unbounded integers. JavaScript's double precision (ids above 2^53) and `String`'s exponent form for values of 1e21 and above are not modelled.
- `loadProjectList` accepts `res.data.projectList ?? res.data`. The model takes the list already extracted from either body shape.
- A response whose `list`, `page` or counters are missing would store `undefined`. The model's response always has them.
- Registration.tsx, `_requests.ts`, AdminRoute.tsx, the edit pages and the detail pages are not part of this model. They are form schemas, HTTP wrappers, a routing guard and fetch-and-display screens with no member reconciliation.
- The code has no seeding of members from an existing project, no incremental patching of the available list, no universe reload and no stale-record handling, so none is modelled.
