/**
 * The issue-creation page: choosing a project loads that project's members as
 * the assignee choices and clears the chosen assignee; `save` checks the title,
 * the project and the assignee, in that order, before sending.
 */
module IssueCreate {
  import opened Wrappers
  import opened Seqs
  import opened Text
  import Membership

  /** A project with the members that can be assigned its issues; `members` may be absent. */
  datatype ProjectWithMembers = ProjectWithMembers(projectId: int, projectName: string,
                                                   members: Option<seq<Membership.User>>)

  /** `proj.members ?? []` */
  function MembersOf(p: ProjectWithMembers): seq<Membership.User> {
    p.members.GetOr([])
  }

  /** The `projectId` state, typed `number | ''`. */
  datatype ProjectChoice = NoChoice | Chosen(id: int)

  /** `!projectId`: the empty string and the number 0 are falsy. */
  predicate IsFalsy(choice: ProjectChoice) {
    choice.NoChoice? || choice.id == 0
  }

  /** `projectList.find(p => p.projectId === id)`, as an index. */
  function FindProject(list: seq<ProjectWithMembers>, id: int): (r: Option<nat>)
    ensures r.None? <==> forall i :: 0 <= i < |list| ==> list[i].projectId != id
    ensures r.Some? ==> r.value < |list| && list[r.value].projectId == id
    ensures r.Some? ==> forall j :: 0 <= j < r.value ==> list[j].projectId != id
  {
    FindIndex(list, (p: ProjectWithMembers) => p.projectId == id)
  }

  /**
   * The effect that runs when `projectId` or `projectList` changes, as the
   * new (member list, assignee) pair: a falsy choice clears both; a choice
   * that names a listed project takes the first such project's members and
   * clears the assignee; a choice that names no listed project keeps both.
   */
  function AfterProjectChange(choice: ProjectChoice, list: seq<ProjectWithMembers>,
                              members: seq<Membership.User>, assignee: string): (r: (seq<Membership.User>, string))
    ensures IsFalsy(choice) ==> r == ([], "")
    ensures !IsFalsy(choice) ==>
              forall i :: (0 <= i < |list| && list[i].projectId == choice.id &&
                           forall j :: 0 <= j < i ==> list[j].projectId != choice.id) ==>
                r == (MembersOf(list[i]), "")
    ensures !IsFalsy(choice) && (forall i :: 0 <= i < |list| ==> list[i].projectId != choice.id) ==>
              r == (members, assignee)
  {
    if IsFalsy(choice) then ([], "")
    else match FindProject(list, choice.id)
      case Some(i) => (MembersOf(list[i]), "")
      case None => (members, assignee)
  }

  /**
   * The project `<select>`'s change handler: `val ? Number(val) : ''`. Its
   * values are `''` and the `String` of each listed project id.
   */
  function ParseChoice(val: string): (r: ProjectChoice)
    requires val == "" || IsIntegerNumeral(val)
    ensures r.NoChoice? <==> val == ""
    ensures r.Chosen? ==> r.id == NumberOf(val)
  {
    if val == "" then NoChoice else Chosen(NumberOf(val))
  }

  /** Choosing a rendered project option selects exactly that project id. */
  lemma ParseOptionValue(id: int)
    ensures ParseChoice(IntToDecimal(id)) == Chosen(id)
  {
    NumberOfIntToDecimal(id);
  }

  /** The reasons `save` stops before sending. */
  datatype IssueSaveError = BlankTitle | MissingProject | MissingAssignee

  /** The request body `save` sends. */
  datatype IssuePayload = IssuePayload(title: string, projectId: int, issueType: string, priority: string,
                                       content: string, startDate: string, endDate: string,
                                       assigneeId: string)

  datatype IssueSave = Rejected(reason: IssueSaveError) | Send(payload: IssuePayload)

  /** The priority `<select>`'s options on this page, with string values. */
  const PriorityChoices: seq<(string, string)> := [("1", "상"), ("2", "중"), ("3", "하")]

  /** The state of the issue-creation page. */
  class IssueForm {
    var title: string
    var projectId: ProjectChoice
    var issueType: string
    var priority: string
    var content: string
    var startDate: string
    var endDate: string
    var projectList: seq<ProjectWithMembers>
    var memberList: seq<Membership.User>
    var assigneeId: string

    /** The page as it mounts: nothing chosen, priority medium. */
    constructor ()
      ensures title == "" && projectId == NoChoice && issueType == "" && priority == "2"
      ensures content == "" && startDate == "" && endDate == ""
      ensures projectList == [] && memberList == [] && assigneeId == ""
    {
      title, projectId, issueType, priority := "", NoChoice, "", "2";
      content, startDate, endDate := "", "", "";
      projectList, memberList, assigneeId := [], [], "";
    }

    /** The project-change effect: recompute the member list and the assignee from the choice. */
    method SyncMembers()
      modifies this`memberList, this`assigneeId
      ensures (memberList, assigneeId) ==
              AfterProjectChange(projectId, projectList, old(memberList), old(assigneeId))
    {
      if IsFalsy(projectId) {
        memberList := [];
        assigneeId := "";
        return;
      }
      var found := FindProject(projectList, projectId.id);
      if found.Some? {
        memberList := MembersOf(projectList[found.value]);
        assigneeId := "";
      }
    }

    /**
     * `loadProjectList`: on success the list is stored and, when it is not
     * empty, its first project is chosen with its members and no assignee;
     * the effect then runs because the list changed. A failed request changes
     * nothing.
     */
    method LoadProjectList(response: Fetch<seq<ProjectWithMembers>>)
      modifies this`projectList, this`projectId, this`memberList, this`assigneeId
      ensures response.Failed? ==> projectList == old(projectList) && projectId == old(projectId) &&
                                   memberList == old(memberList) && assigneeId == old(assigneeId)
      ensures response.Received? ==> projectList == response.body
      ensures response.Received? && response.body != [] ==>
                projectId == Chosen(response.body[0].projectId) && assigneeId == "" &&
                memberList == (if response.body[0].projectId == 0 then [] else MembersOf(response.body[0]))
      ensures response.Received? && response.body == [] ==>
                projectId == old(projectId) &&
                (memberList, assigneeId) ==
                (if IsFalsy(old(projectId)) then ([], "") else (old(memberList), old(assigneeId)))
    {
      if response.Received? {
        var list := response.body;
        projectList := list;
        if |list| > 0 {
          var first := list[0];
          projectId := Chosen(first.projectId);
          memberList := MembersOf(first);
          assigneeId := "";
        }
        SyncMembers();
      }
    }

    /**
     * A change of the project `<select>`: the parsed value becomes the
     * choice, and the effect runs only if the choice actually changed.
     */
    method SelectProject(val: string)
      requires val == "" || IsIntegerNumeral(val)
      modifies this`projectId, this`memberList, this`assigneeId
      ensures projectId == ParseChoice(val)
      ensures projectId == old(projectId) ==> memberList == old(memberList) && assigneeId == old(assigneeId)
      ensures projectId != old(projectId) ==>
                (memberList, assigneeId) == AfterProjectChange(projectId, projectList, old(memberList), old(assigneeId))
    {
      var choice := ParseChoice(val);
      if choice != projectId {
        projectId := choice;
        SyncMembers();
      }
    }

    /**
     * `save`'s checks, first failure wins: a blank title, then a falsy
     * project, then an empty assignee; only when all pass is the body sent,
     * carrying the chosen project and assignee.
     */
    method Save() returns (r: IssueSave)
      ensures IsBlank(title) ==> r == Rejected(BlankTitle)
      ensures !IsBlank(title) && IsFalsy(projectId) ==> r == Rejected(MissingProject)
      ensures !IsBlank(title) && !IsFalsy(projectId) && assigneeId == "" ==> r == Rejected(MissingAssignee)
      ensures r.Send? <==> !IsBlank(title) && !IsFalsy(projectId) && assigneeId != ""
      ensures r.Send? ==> r.payload == IssuePayload(title, projectId.id, issueType, priority,
                                                    content, startDate, endDate, assigneeId)
    {
      if Trim(title) == "" {
        return Rejected(BlankTitle);
      }
      if IsFalsy(projectId) {
        return Rejected(MissingProject);
      }
      if assigneeId == "" {
        return Rejected(MissingAssignee);
      }
      r := Send(IssuePayload(title, projectId.id, issueType, priority, content, startDate, endDate, assigneeId));
    }
  }
}
