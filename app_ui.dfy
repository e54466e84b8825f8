/** The panel's UI state: the active tab, the four modal flags and the issue the
    open modal works on. */
module AppUi {
  import opened Jira

  datatype Tab = Issues | Team

  /** A snapshot of the store's fields. */
  datatype UiState = UiState(
    activeTab: Tab,
    showAssignModal: bool,
    showPriorityModal: bool,
    showMultiFixModal: bool,
    showAutoAssignConfirm: bool,
    selectedIssue: Option<Issue>)

  /** The state a fresh store starts in. */
  function Initial(): (st: UiState)
    ensures st.activeTab == Issues && st.selectedIssue.None? && !AnyModal(st)
  {
    UiState(Issues, false, false, false, false, None)
  }

  predicate AnyModal(st: UiState)
  {
    st.showAssignModal || st.showPriorityModal || st.showMultiFixModal || st.showAutoAssignConfirm
  }

  /** `resetModals`: every flag down, the tab and the selected issue kept. */
  function Reset(st: UiState): (r: UiState)
    ensures !AnyModal(r)
    ensures r.activeTab == st.activeTab && r.selectedIssue == st.selectedIssue
  {
    st.(showAssignModal := false, showPriorityModal := false, showMultiFixModal := false, showAutoAssignConfirm := false)
  }

  /** Resetting twice is resetting once, and a state with no modal open is left as it is. */
  lemma {:induction false} ResetIdempotent(st: UiState)
    ensures Reset(Reset(st)) == Reset(st)
    ensures Reset(st) == st <==> !AnyModal(st)
  {
  }

  /** The mobx store. Each setter writes its own field and nothing else. */
  class AppUiStore {
    var activeTab: Tab
    var showAssignModal: bool
    var showPriorityModal: bool
    var showMultiFixModal: bool
    var showAutoAssignConfirm: bool
    var selectedIssue: Option<Issue>

    function State(): UiState
      reads this
    {
      UiState(activeTab, showAssignModal, showPriorityModal, showMultiFixModal, showAutoAssignConfirm, selectedIssue)
    }

    constructor()
      ensures State() == Initial()
    {
      activeTab := Issues;
      showAssignModal, showPriorityModal, showMultiFixModal, showAutoAssignConfirm := false, false, false, false;
      selectedIssue := None;
    }

    method SetActiveTab(tab: Tab)
      modifies this
      ensures State() == old(State()).(activeTab := tab)
    {
      activeTab := tab;
    }

    method SetSelectedIssue(issue: Option<Issue>)
      modifies this
      ensures State() == old(State()).(selectedIssue := issue)
    {
      selectedIssue := issue;
    }

    method SetShowAssignModal(v: bool)
      modifies this
      ensures State() == old(State()).(showAssignModal := v)
    {
      showAssignModal := v;
    }

    method SetShowPriorityModal(v: bool)
      modifies this
      ensures State() == old(State()).(showPriorityModal := v)
    {
      showPriorityModal := v;
    }

    method SetShowMultiFixModal(v: bool)
      modifies this
      ensures State() == old(State()).(showMultiFixModal := v)
    {
      showMultiFixModal := v;
    }

    method SetShowAutoAssignConfirm(v: bool)
      modifies this
      ensures State() == old(State()).(showAutoAssignConfirm := v)
    {
      showAutoAssignConfirm := v;
    }

    method ResetModals()
      modifies this
      ensures State() == Reset(old(State()))
    {
      showAssignModal := false;
      showPriorityModal := false;
      showMultiFixModal := false;
      showAutoAssignConfirm := false;
    }
  }
}
