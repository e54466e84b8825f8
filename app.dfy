/** The panel's handlers that drive the modals: which modal the "fix" button
    opens, closing them, and the two actions a modal can confirm. The confirmed
    action is returned as a request rather than performed: the remote call and
    its error alert are not part of this model. */
module App {
  import opened Jira
  import opened AppUi
  import opened AppData

  datatype FixChoice = OpenMultiFix | OpenAssign | OpenPriority

  /** The modal `handleFix` opens for an issue, if any. */
  function FixModal(issue: Issue, now: int): Option<FixChoice>
  {
    var unassigned := IsUnassigned(issue);
    var lowWithDeadline := IsLowWithDeadline(issue, now);
    if unassigned && lowWithDeadline then Some(OpenMultiFix)
    else if unassigned then Some(OpenAssign)
    else if lowWithDeadline then Some(OpenPriority)
    else None
  }

  /** `handleFix` on a state: select the issue, then raise the chosen modal's flag. */
  function Fix(st: UiState, issue: Issue, now: int): (r: UiState)
    ensures r.selectedIssue == Some(issue) && r.activeTab == st.activeTab
    ensures r.showAutoAssignConfirm == st.showAutoAssignConfirm
  {
    var st' := st.(selectedIssue := Some(issue));
    match FixModal(issue, now)
    case Some(OpenMultiFix) => st'.(showMultiFixModal := true)
    case Some(OpenAssign) => st'.(showAssignModal := true)
    case Some(OpenPriority) => st'.(showPriorityModal := true)
    case None => st'
  }

  /** `closeModals`: every flag down and nothing selected. */
  function Close(st: UiState): (r: UiState)
    ensures !AnyModal(r) && r.selectedIssue.None? && r.activeTab == st.activeTab
  {
    Reset(st).(selectedIssue := None)
  }

  function ChooseAssign(st: UiState): UiState
  {
    st.(showMultiFixModal := false, showAssignModal := true)
  }

  function ChoosePriority(st: UiState): UiState
  {
    st.(showMultiFixModal := false, showPriorityModal := true)
  }

  // ---------------------------------------------------------------------------
  // Properties of the transitions

  /** The combined modal opens exactly for an unassigned issue that is also low
      priority and due soon; the assign modal exactly for the other unassigned
      issues; the priority modal exactly for assigned issues that are low and due
      soon; and nothing opens exactly when the issue is not a problem. */
  lemma {:induction false} FixModalMeaning(issue: Issue, now: int)
    ensures FixModal(issue, now) == Some(OpenMultiFix) <==> IsUnassigned(issue) && IsLowWithDeadline(issue, now)
    ensures FixModal(issue, now) == Some(OpenAssign) <==> IsUnassigned(issue) && !IsLowWithDeadline(issue, now)
    ensures FixModal(issue, now) == Some(OpenPriority) <==> !IsUnassigned(issue) && IsLowWithDeadline(issue, now)
    ensures FixModal(issue, now).None? <==> !IsProblem(issue, now)
  {
  }

  /** From a state with no modal open, fixing an issue opens exactly one modal if
      the issue is a problem and none otherwise. */
  lemma {:induction false} FixOpensOneModal(st: UiState, issue: Issue, now: int)
    requires !AnyModal(st)
    ensures var r := Fix(st, issue, now);
      && (IsProblem(issue, now) <==> AnyModal(r))
      && (r.showAssignModal ==> !r.showPriorityModal && !r.showMultiFixModal)
      && (r.showPriorityModal ==> !r.showMultiFixModal)
  {
  }

  /** Fixing an issue that is not a problem changes nothing but the selection. */
  lemma {:induction false} FixWithoutProblem(st: UiState, issue: Issue, now: int)
    requires !IsProblem(issue, now)
    ensures Fix(st, issue, now) == st.(selectedIssue := Some(issue))
  {
    FixModalMeaning(issue, now);
  }

  /** Closing after a fix leaves the same state as closing straight away. */
  lemma {:induction false} CloseUndoesFix(st: UiState, issue: Issue, now: int)
    ensures Close(Fix(st, issue, now)) == Close(st)
  {
  }

  /** From the combined modal, either choice leaves exactly one modal open, on the same issue. */
  lemma {:induction false} ChoiceLeavesOneModal(st: UiState, issue: Issue, now: int)
    requires !AnyModal(st) && FixModal(issue, now) == Some(OpenMultiFix)
    ensures var m := Fix(st, issue, now);
      && ChooseAssign(m) == st.(selectedIssue := Some(issue), showAssignModal := true)
      && ChoosePriority(m) == st.(selectedIssue := Some(issue), showPriorityModal := true)
  {
  }

  // ---------------------------------------------------------------------------
  // The handlers over the store

  method HandleFix(ui: AppUiStore, issue: Issue, now: int)
    modifies ui
    ensures ui.State() == Fix(old(ui.State()), issue, now)
  {
    var isUnassigned := issue.assignee.None?;
    var isLowPriority := issue.priority.name == "Low" || issue.priority.name == "Lowest";
    var isLowPriorityWithDeadline := isLowPriority && issue.duedate.Some? && issue.duedate.value < now + WeekMs;
    ui.SetSelectedIssue(Some(issue));
    if isUnassigned && isLowPriorityWithDeadline {
      ui.SetShowMultiFixModal(true);
    } else if isUnassigned {
      ui.SetShowAssignModal(true);
    } else if isLowPriorityWithDeadline {
      ui.SetShowPriorityModal(true);
    }
  }

  method CloseModals(ui: AppUiStore)
    modifies ui
    ensures ui.State() == Close(old(ui.State()))
  {
    ui.ResetModals();
    ui.SetSelectedIssue(None);
  }

  datatype AssignRequest = AssignRequest(issueKey: string, accountId: string)

  datatype PriorityRequest = PriorityRequest(issueKey: string, priorityId: string)

  /** `handleAssignFromModal`: with an issue selected, request the assignment and
      close; with none, do nothing. */
  method HandleAssignFromModal(ui: AppUiStore, accountId: string) returns (request: Option<AssignRequest>)
    modifies ui
    ensures old(ui.selectedIssue).None? ==> request.None? && ui.State() == old(ui.State())
    ensures old(ui.selectedIssue).Some? ==>
      && request == Some(AssignRequest(old(ui.selectedIssue).value.key, accountId))
      && ui.State() == Close(old(ui.State()))
  {
    request := None;
    if ui.selectedIssue.Some? {
      request := Some(AssignRequest(ui.selectedIssue.value.key, accountId));
      CloseModals(ui);
    }
  }

  /** `handleFixPriorityFromModal`: as above, with the priority id defaulting to '3'. */
  method HandleFixPriorityFromModal(ui: AppUiStore, priorityId: Option<string>) returns (request: Option<PriorityRequest>)
    modifies ui
    ensures old(ui.selectedIssue).None? ==> request.None? && ui.State() == old(ui.State())
    ensures old(ui.selectedIssue).Some? ==>
      && request == Some(PriorityRequest(old(ui.selectedIssue).value.key,
                                         if priorityId.Some? then priorityId.value else "3"))
      && ui.State() == Close(old(ui.State()))
  {
    request := None;
    if ui.selectedIssue.Some? {
      var id := if priorityId.Some? then priorityId.value else "3";
      request := Some(PriorityRequest(ui.selectedIssue.value.key, id));
      CloseModals(ui);
    }
  }

  /** The combined modal's "assign" choice. */
  method OnChooseAssign(ui: AppUiStore)
    modifies ui
    ensures ui.State() == ChooseAssign(old(ui.State()))
  {
    ui.SetShowMultiFixModal(false);
    ui.SetShowAssignModal(true);
  }

  /** The combined modal's "priority" choice. */
  method OnChoosePriority(ui: AppUiStore)
    modifies ui
    ensures ui.State() == ChoosePriority(old(ui.State()))
  {
    ui.SetShowMultiFixModal(false);
    ui.SetShowPriorityModal(true);
  }
}
