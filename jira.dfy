/** Records shared by the Jira assistant: the domain issue and user, the search
    response of the issue-search endpoint, and the results of an auto-assign pass.
    Instants (due dates, "now") are milliseconds since the epoch. */
module Jira {

  datatype Option<+T> = None | Some(value: T)

  /** A team member as the assignable-users endpoint and the mock roster return it. */
  datatype User = User(
    accountId: string,
    displayName: string,
    emailAddress: Option<string>,
    avatarUrl: string,
    active: bool)

  datatype Priority = Priority(name: string, id: string)

  /** The issue record the panel works with. */
  datatype Issue = Issue(
    id: string,
    key: string,
    summary: string,
    status: string,
    assignee: Option<User>,
    priority: Priority,
    duedate: Option<int>,
    created: string,
    updated: string)

  datatype Project = Project(id: string, key: string, name: string, projectTypeKey: string)

  /** The assignee object inside a search hit; it has no `active` flag. */
  datatype AssigneeDto = AssigneeDto(
    accountId: string,
    displayName: string,
    emailAddress: Option<string>,
    avatar24: string)

  /** The `fields` of a search hit: every field may be missing (`None`). A missing
      and a null assignee or due date are both `None`. */
  datatype FieldsDto = FieldsDto(
    summary: Option<string>,
    statusName: Option<string>,
    assignee: Option<AssigneeDto>,
    priority: Option<Priority>,
    duedate: Option<int>,
    created: Option<string>,
    updated: Option<string>)

  /** One hit of the issue-search endpoint. */
  datatype IssueDto = IssueDto(id: string, key: string, fields: FieldsDto)

  /** What a rejected request threw: an `Error` with a message, or any other value. */
  datatype Thrown = ErrorValue(message: string) | OtherValue

  /** The outcome of one assignee PUT against the remote store. */
  datatype PutOutcome = PutOk | PutFailed(thrown: Thrown)

  /** One per attempted issue of an auto-assign pass. */
  datatype AssignResult = AssignResult(
    issueKey: string,
    assignedTo: Option<string>,
    success: bool,
    error: Option<string>)

  /** The two numbers of the "N of M assigned" summary line. */
  datatype Summary = Summary(succeeded: nat, total: nat)

  datatype AutoAssignResponse = AutoAssignResponse(
    success: bool,
    message: Option<string>,
    error: Option<string>,
    results: Option<seq<AssignResult>>,
    summary: Option<Summary>)

  /** The generic reply of an API call that carries no data. */
  datatype ApiResponse = ApiResponse(success: bool, message: Option<string>, error: Option<string>)

  /** The per-user workload cap of auto-assignment. */
  const MaxTasksPerUser: nat := 2

  const NoUnassignedMessage := "Нет задач без исполнителя"

  /** Number of successful entries, i.e. `results.filter(r => r.success).length`. */
  function SuccessCount(rs: seq<AssignResult>): (n: nat)
    ensures n <= |rs|
  {
    if rs == [] then 0 else (if rs[0].success then 1 else 0) + SuccessCount(rs[1..])
  }

  lemma {:induction false} SuccessCountAppend(rs: seq<AssignResult>, r: AssignResult)
    ensures SuccessCount(rs + [r]) == SuccessCount(rs) + (if r.success then 1 else 0)
  {
    if rs != [] {
      assert (rs + [r])[1..] == rs[1..] + [r];
      SuccessCountAppend(rs[1..], r);
    }
  }

  /** A success result names the assignee; a failure carries the error. */
  function Assigned(key: string, name: string): (r: AssignResult)
    ensures r.success && r.issueKey == key && r.assignedTo == Some(name)
  {
    AssignResult(key, Some(name), true, None)
  }

  function Failed(key: string, error: Option<string>): (r: AssignResult)
    ensures !r.success && r.issueKey == key && r.error == error
  {
    AssignResult(key, None, false, error)
  }
}
