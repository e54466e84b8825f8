/** The global store of the first-generation panel: the current project, the
    issue and user lists, the project statistics and the loading and error
    flags, each replaced by its own setter, plus a keyed update that merges a
    partial set of fields into every issue with a given key. */
module AppStore {
  import opened Jira

  /** One field of a partial update: absent (`Keep`) or present with a value. */
  datatype Patch<T> = Keep | Put(value: T)

  function Patched<T>(p: Patch<T>, current: T): (v: T)
    ensures p.Put? ==> v == p.value
    ensures p.Keep? ==> v == current
  {
    match p
    case Keep => current
    case Put(v) => v
  }

  /** A partial set of the issue's fields. An assignee or due date that is present
      may be present as null (`Put(None)`), which clears it. */
  datatype FieldUpdates = FieldUpdates(
    summary: Patch<string>,
    status: Patch<string>,
    assignee: Patch<Option<User>>,
    priority: Patch<Priority>,
    duedate: Patch<Option<int>>,
    created: Patch<string>,
    updated: Patch<string>)

  const NoUpdates := FieldUpdates(Keep, Keep, Keep, Keep, Keep, Keep, Keep)

  /** `{ ...issue, fields: { ...issue.fields, ...updates } }`: the identity and the
      key are not fields, so they never change. */
  function Merge(i: Issue, u: FieldUpdates): (r: Issue)
    ensures r.id == i.id && r.key == i.key
    ensures r.summary == Patched(u.summary, i.summary) && r.status == Patched(u.status, i.status)
    ensures r.assignee == Patched(u.assignee, i.assignee) && r.priority == Patched(u.priority, i.priority)
    ensures r.duedate == Patched(u.duedate, i.duedate)
    ensures r.created == Patched(u.created, i.created) && r.updated == Patched(u.updated, i.updated)
  {
    Issue(i.id, i.key, Patched(u.summary, i.summary), Patched(u.status, i.status),
          Patched(u.assignee, i.assignee), Patched(u.priority, i.priority), Patched(u.duedate, i.duedate),
          Patched(u.created, i.created), Patched(u.updated, i.updated))
  }

  /** Two updates in a row: a field present in the later one wins. */
  function Then(first: FieldUpdates, second: FieldUpdates): FieldUpdates
  {
    FieldUpdates(
      if second.summary.Put? then second.summary else first.summary,
      if second.status.Put? then second.status else first.status,
      if second.assignee.Put? then second.assignee else first.assignee,
      if second.priority.Put? then second.priority else first.priority,
      if second.duedate.Put? then second.duedate else first.duedate,
      if second.created.Put? then second.created else first.created,
      if second.updated.Put? then second.updated else first.updated)
  }

  /** The new issue list of `updateIssue`: same length and order, issues with
      another key untouched, every issue with the key merged. */
  function UpdateIssues(issues: seq<Issue>, issueKey: string, u: FieldUpdates): (r: seq<Issue>)
    ensures |r| == |issues|
    ensures forall k :: 0 <= k < |issues| && issues[k].key != issueKey ==> r[k] == issues[k]
    ensures forall k :: 0 <= k < |issues| && issues[k].key == issueKey ==> r[k] == Merge(issues[k], u)
  {
    seq(|issues|, k requires 0 <= k < |issues| => if issues[k].key == issueKey then Merge(issues[k], u) else issues[k])
  }

  /** The list of keys, which no update changes. */
  function Keys(issues: seq<Issue>): (ks: seq<string>)
    ensures |ks| == |issues| && forall k :: 0 <= k < |issues| ==> ks[k] == issues[k].key
  {
    seq(|issues|, k requires 0 <= k < |issues| => issues[k].key)
  }

  // ---------------------------------------------------------------------------
  // Properties of the keyed update

  /** Merging is applying each field of the patch: merging nothing is the identity,
      and merging twice is merging the combined patch. */
  lemma {:induction false} MergeLaws(i: Issue, u1: FieldUpdates, u2: FieldUpdates)
    ensures Merge(i, NoUpdates) == i
    ensures Merge(Merge(i, u1), u2) == Merge(i, Then(u1, u2))
    ensures Merge(Merge(i, u1), u1) == Merge(i, u1)
  {
  }

  /** No issue gains or loses a key, and none moves. */
  lemma {:induction false} UpdateKeepsKeys(issues: seq<Issue>, issueKey: string, u: FieldUpdates)
    ensures Keys(UpdateIssues(issues, issueKey, u)) == Keys(issues)
  {
    var r := UpdateIssues(issues, issueKey, u);
    assert forall k :: 0 <= k < |issues| ==> Keys(r)[k] == Keys(issues)[k];
  }

  /** A key no issue has, or an empty update, leaves the list as it was. */
  lemma {:induction false} UpdateWithoutEffect(issues: seq<Issue>, issueKey: string, u: FieldUpdates)
    requires u == NoUpdates || issueKey !in Keys(issues)
    ensures UpdateIssues(issues, issueKey, u) == issues
  {
    var r := UpdateIssues(issues, issueKey, u);
    forall k | 0 <= k < |issues|
      ensures r[k] == issues[k]
    {
      if issues[k].key == issueKey {
        assert Keys(issues)[k] == issueKey;
        MergeLaws(issues[k], u, u);
      }
    }
  }

  /** Updating the same key twice is updating once with the later fields winning;
      repeating an update changes nothing. */
  lemma {:induction false} UpdateTwice(issues: seq<Issue>, issueKey: string, u1: FieldUpdates, u2: FieldUpdates)
    ensures UpdateIssues(UpdateIssues(issues, issueKey, u1), issueKey, u2) == UpdateIssues(issues, issueKey, Then(u1, u2))
    ensures UpdateIssues(UpdateIssues(issues, issueKey, u1), issueKey, u1) == UpdateIssues(issues, issueKey, u1)
  {
    var once := UpdateIssues(issues, issueKey, u1);
    var a := UpdateIssues(once, issueKey, u2);
    var b := UpdateIssues(issues, issueKey, Then(u1, u2));
    var c := UpdateIssues(once, issueKey, u1);
    forall k | 0 <= k < |issues|
      ensures a[k] == b[k] && c[k] == once[k]
    {
      MergeLaws(issues[k], u1, u2);
    }
  }

  /** Updates of two different keys touch disjoint issues, so their order does not matter. */
  lemma {:induction false} UpdatesOfOtherKeysCommute(issues: seq<Issue>, key1: string, u1: FieldUpdates,
                                                     key2: string, u2: FieldUpdates)
    requires key1 != key2
    ensures UpdateIssues(UpdateIssues(issues, key1, u1), key2, u2)
         == UpdateIssues(UpdateIssues(issues, key2, u2), key1, u1)
  {
    var a := UpdateIssues(UpdateIssues(issues, key1, u1), key2, u2);
    var b := UpdateIssues(UpdateIssues(issues, key2, u2), key1, u1);
    assert forall k :: 0 <= k < |issues| ==> a[k] == b[k];
  }

  // ---------------------------------------------------------------------------
  // The store

  datatype ProjectStats = ProjectStats(totalIssues: nat, unassignedIssues: nat, lowPriorityWithDeadline: nat, activeUsers: nat)

  datatype StoreState = StoreState(
    currentProject: Option<Project>,
    issues: seq<Issue>,
    users: seq<User>,
    stats: Option<ProjectStats>,
    loading: bool,
    error: Option<string>)

  function InitialStore(): StoreState
  {
    StoreState(None, [], [], None, false, None)
  }

  class Store {
    var currentProject: Option<Project>
    var issues: seq<Issue>
    var users: seq<User>
    var stats: Option<ProjectStats>
    var loading: bool
    var error: Option<string>

    function State(): StoreState
      reads this
    {
      StoreState(currentProject, issues, users, stats, loading, error)
    }

    constructor ()
      ensures State() == InitialStore()
    {
      currentProject := None;
      issues := [];
      users := [];
      stats := None;
      loading := false;
      error := None;
    }

    method SetCurrentProject(project: Project)
      modifies this
      ensures State() == old(State()).(currentProject := Some(project))
    {
      currentProject := Some(project);
    }

    method SetIssues(newIssues: seq<Issue>)
      modifies this
      ensures State() == old(State()).(issues := newIssues)
    {
      issues := newIssues;
    }

    method SetUsers(newUsers: seq<User>)
      modifies this
      ensures State() == old(State()).(users := newUsers)
    {
      users := newUsers;
    }

    method SetStats(newStats: ProjectStats)
      modifies this
      ensures State() == old(State()).(stats := Some(newStats))
    {
      stats := Some(newStats);
    }

    method SetLoading(isLoading: bool)
      modifies this
      ensures State() == old(State()).(loading := isLoading)
    {
      loading := isLoading;
    }

    method SetError(newError: Option<string>)
      modifies this
      ensures State() == old(State()).(error := newError)
    {
      error := newError;
    }

    /** `updateIssue`: the list is replaced by its keyed update, nothing else changes. */
    method UpdateIssue(issueKey: string, updates: FieldUpdates)
      modifies this
      ensures State() == old(State()).(issues := UpdateIssues(old(issues), issueKey, updates))
      ensures Keys(issues) == Keys(old(issues))
    {
      UpdateKeepsKeys(issues, issueKey, updates);
      issues := UpdateIssues(issues, issueKey, updates);
    }
  }
}
