/**
 * The issue record and the priority table shared by the issue pages, with the
 * lookup that turns a priority value into its label.
 */
module IssueTypes {
  import opened Wrappers
  import opened Seqs

  /** The priority codes an issue carries: `'1' | '2' | '3'`. */
  type PriorityCode = s: string | s == "1" || s == "2" || s == "3" witness "2"

  /** One issue as the list endpoint returns it. */
  datatype Issue = Issue(id: int, issueId: int, name: string, projectId: int, projectName: string,
                         issueType: string, issuePriority: PriorityCode, managerUserId: string,
                         managerName: string, startDate: string, endDate: string, content: string)

  /** A JavaScript value of the two types that reach the lookup. */
  datatype JsValue = Num(n: int) | Str(s: string)

  datatype PriorityOption = PriorityOption(value: int, labelText: string)

  /** `priorityOptions`: high, medium and low. */
  const PriorityOptions: seq<PriorityOption> :=
    [PriorityOption(1, "상"), PriorityOption(2, "중"), PriorityOption(3, "하")]

  /** What the lookup returns: the string label, or the input value itself. */
  datatype PriorityLabel = Label(text: string) | Raw(value: JsValue)

  /**
   * `priorityOptions.find(p => p.value === v)?.label ?? v` for a value `v` of
   * either type: strict equality never holds between a number and a string.
   */
  function LookupLabel(v: JsValue): (r: PriorityLabel)
    ensures r.Raw? <==> forall i :: 0 <= i < |PriorityOptions| ==> Num(PriorityOptions[i].value) != v
    ensures r.Raw? ==> r.value == v
    ensures r.Label? ==> exists i :: 0 <= i < |PriorityOptions| && Num(PriorityOptions[i].value) == v
                                    && PriorityOptions[i].labelText == r.text
  {
    match FindIndex(PriorityOptions, (p: PriorityOption) => Num(p.value) == v)
    case Some(i) => Label(PriorityOptions[i].labelText)
    case None => Raw(v)
  }

  /** `getPriorityLabel(value: number)`. */
  function GetPriorityLabel(value: int): (r: PriorityLabel)
    ensures value == 1 ==> r == Label("상")
    ensures value == 2 ==> r == Label("중")
    ensures value == 3 ==> r == Label("하")
    ensures !(1 <= value <= 3) ==> r == Raw(Num(value))
  {
    LookupLabel(Num(value))
  }

  /** The table's values are distinct and so are its labels: at most one option matches, and a label names one value. */
  lemma PriorityTableInjective()
    ensures forall i, j :: 0 <= i < j < |PriorityOptions| ==>
      PriorityOptions[i].value != PriorityOptions[j].value && PriorityOptions[i].labelText != PriorityOptions[j].labelText
  {
  }

  /** Two values that get the same text label are the same value. */
  lemma LabelDeterminesValue(a: int, b: int)
    requires GetPriorityLabel(a).Label? && GetPriorityLabel(a) == GetPriorityLabel(b)
    ensures a == b
  {
  }
}
