/** The in-memory backend the panel falls back on when Jira cannot be reached:
    a module-level issue array that assignee and priority updates overwrite in
    place, a fixed roster, and an auto-assign pass that re-counts every user's
    load before each issue and gives it to a randomly chosen user below two. */
module MockBackend {
  import opened Jira
  import AppData
  import IssueMapping

  const NoFreeUserError := "Нет доступных пользователей"
  const UnknownFunctionPrefix := "Неизвестная функция: "
  const AssigneeMessagePrefix := "Исполнитель назначен для задачи "
  const PriorityMessagePrefix := "Приоритет обновлен для задачи "

  /** The optional argument object; a field that is absent, or the object itself, is `None`. */
  datatype Payload = Payload(issueKey: Option<string>, accountId: Option<string>, priorityId: Option<string>)

  /** JavaScript truthiness of an optional string. */
  predicate Truthy(o: Option<string>)
  {
    o.Some? && o.value != ""
  }

  /** An optional string inside a template literal: a missing one prints as "undefined". */
  function Shown(o: Option<string>): (s: string)
    ensures o.Some? ==> s == o.value
  {
    if o.Some? then o.value else "undefined"
  }

  // ---------------------------------------------------------------------------
  // Rosters

  function MockUser(id: string, name: string, email: string, active: bool): User
  {
    User(id, name, Some(email), "https://via.placeholder.com/24", active)
  }

  /** The roster of the modular API's mock: all five users active. */
  function ModularRoster(): seq<User>
  {
    [MockUser("user1", "Иван Иванов", "ivan@example.com", true),
     MockUser("user2", "Мария Петрова", "maria@example.com", true),
     MockUser("user3", "Алексей Сидоров", "alex@example.com", true),
     MockUser("user4", "Елена Козлова", "elena@example.com", true),
     MockUser("user5", "Дмитрий Новиков", "dmitry@example.com", true)]
  }

  /** The roster of the single-file API's mock: `user5` is inactive. */
  function LegacyRoster(): seq<User>
  {
    [MockUser("user1", "Иван Иванов", "ivan@example.com", true),
     MockUser("user2", "Мария Петрова", "maria@example.com", true),
     MockUser("user3", "Алексей Сидоров", "alex@example.com", true),
     MockUser("user4", "Елена Козлова", "elena@example.com", true),
     MockUser("user5", "Дмитрий Новиков", "dmitry@example.com", false)]
  }

  function MockProjects(): seq<Project>
  {
    [Project("10000", "SCRUM", "Scrum Project", "software"),
     Project("10001", "KANBAN", "Kanban Board", "software"),
     Project("10002", "SUPPORT", "Support Desk", "service_desk")]
  }

  // ---------------------------------------------------------------------------
  // Lookups

  /** `findIndex` by key: the first position holding `key`, if any. */
  function FindIndex(issues: seq<Issue>, key: string): (r: Option<nat>)
    ensures r.Some? ==> r.value < |issues| && issues[r.value].key == key
                        && forall j :: 0 <= j < r.value ==> issues[j].key != key
    ensures r.None? ==> forall j :: 0 <= j < |issues| ==> issues[j].key != key
  {
    if issues == [] then None
    else if issues[0].key == key then Some(0)
    else match FindIndex(issues[1..], key)
      case Some(i) => Some(i + 1)
      case None => None
  }

  /** `find` by accountId: the first user holding `accountId`, if any. */
  function FindUser(users: seq<User>, accountId: string): (r: Option<User>)
    ensures r.Some? ==> r.value in users && r.value.accountId == accountId
    ensures r.None? ==> forall u :: u in users ==> u.accountId != accountId
  {
    if users == [] then None
    else if users[0].accountId == accountId then Some(users[0])
    else FindUser(users[1..], accountId)
  }

  predicate UniqueKeys(issues: seq<Issue>)
  {
    forall i, j :: 0 <= i < j < |issues| ==> issues[i].key != issues[j].key
  }

  /** With unique keys, looking up the key at a position finds that position. */
  lemma {:induction false} FindIndexOfUniqueKey(issues: seq<Issue>, p: nat)
    requires UniqueKeys(issues) && p < |issues|
    ensures FindIndex(issues, issues[p].key) == Some(p)
  {
  }

  // ---------------------------------------------------------------------------
  // Priorities

  /** The id-to-name table of `updateIssuePriority`; any other id reads as 'Medium'. */
  function PriorityName(id: string): string
  {
    if id == "1" then "Highest"
    else if id == "2" then "High"
    else if id == "3" then "Medium"
    else if id == "4" then "Low"
    else if id == "5" then "Lowest"
    else "Medium"
  }

  /** The inverse table: the id of each of the five names. */
  function PriorityIdOf(name: string): Option<string>
  {
    if name == "Highest" then Some("1")
    else if name == "High" then Some("2")
    else if name == "Medium" then Some("3")
    else if name == "Low" then Some("4")
    else if name == "Lowest" then Some("5")
    else None
  }

  predicate KnownPriorityId(id: string)
  {
    id == "1" || id == "2" || id == "3" || id == "4" || id == "5"
  }

  /** The table is a bijection between the five ids and the five names, and every
      other id is read as Medium. */
  lemma {:induction false} PriorityTable(id: string, name: string)
    ensures KnownPriorityId(id) ==> PriorityIdOf(PriorityName(id)) == Some(id)
    ensures PriorityIdOf(name).Some? ==> PriorityName(PriorityIdOf(name).value) == name
    ensures !KnownPriorityId(id) ==> PriorityName(id) == "Medium"
  {
  }

  // ---------------------------------------------------------------------------
  // The two updates as functions of the array

  /** The array after `updateIssueAssignee`. */
  function AssigneeUpdated(issues: seq<Issue>, users: seq<User>, payload: Payload, now: string): seq<Issue>
  {
    if Truthy(payload.issueKey) && Truthy(payload.accountId) then
      match (FindIndex(issues, payload.issueKey.value), FindUser(users, payload.accountId.value))
      case (Some(p), Some(u)) => issues[p := issues[p].(assignee := Some(u), updated := now)]
      case _ => issues
    else issues
  }

  /** The array after `updateIssuePriority`: the given id is stored as it is, with its name. */
  function PriorityUpdated(issues: seq<Issue>, payload: Payload, now: string): seq<Issue>
  {
    if Truthy(payload.issueKey) && Truthy(payload.priorityId) then
      match FindIndex(issues, payload.issueKey.value)
      case Some(p) =>
        var id := payload.priorityId.value;
        issues[p := issues[p].(priority := Priority(PriorityName(id), id), updated := now)]
      case None => issues
    else issues
  }

  /** A known key and a known user set that issue's assignee to the user's record
      and its update time; every other position is unchanged. An empty or unknown
      key or user changes nothing. */
  lemma {:induction false} AssigneeUpdateEffect(issues: seq<Issue>, users: seq<User>, payload: Payload, now: string)
    ensures var r := AssigneeUpdated(issues, users, payload, now);
      && |r| == |issues|
      && (forall j :: 0 <= j < |issues| ==> r[j].key == issues[j].key)
      && (if Truthy(payload.issueKey) && Truthy(payload.accountId)
             && FindIndex(issues, payload.issueKey.value).Some? && FindUser(users, payload.accountId.value).Some?
          then
            var p := FindIndex(issues, payload.issueKey.value).value;
            var u := FindUser(users, payload.accountId.value).value;
            && issues[p].key == payload.issueKey.value
            && u in users && u.accountId == payload.accountId.value
            && r[p] == issues[p].(assignee := Some(u), updated := now)
            && forall j :: 0 <= j < |issues| && j != p ==> r[j] == issues[j]
          else r == issues)
  {
  }

  /** A known key gets the given id and the table's name for it, and nothing else changes. */
  lemma {:induction false} PriorityUpdateEffect(issues: seq<Issue>, payload: Payload, now: string)
    ensures var r := PriorityUpdated(issues, payload, now);
      && |r| == |issues|
      && (forall j :: 0 <= j < |issues| ==> r[j].key == issues[j].key && r[j].assignee == issues[j].assignee)
      && (if Truthy(payload.issueKey) && Truthy(payload.priorityId) && FindIndex(issues, payload.issueKey.value).Some?
          then
            var p := FindIndex(issues, payload.issueKey.value).value;
            var id := payload.priorityId.value;
            && issues[p].key == payload.issueKey.value
            && r[p].priority.id == id
            && (KnownPriorityId(id) ==> PriorityIdOf(r[p].priority.name) == Some(id))
            && (!KnownPriorityId(id) ==> r[p].priority.name == "Medium")
            && r[p] == issues[p].(priority := r[p].priority, updated := now)
            && forall j :: 0 <= j < |issues| && j != p ==> r[j] == issues[j]
          else r == issues)
  {
    if Truthy(payload.issueKey) && Truthy(payload.priorityId) && FindIndex(issues, payload.issueKey.value).Some? {
      PriorityTable(payload.priorityId.value, "");
    }
  }

  // ---------------------------------------------------------------------------
  // Loads and the random pass's candidates

  /** The active users whose current load is below two, in roster order. */
  function FreeUsers(users: seq<User>, issues: seq<Issue>): (r: seq<User>)
    ensures |r| <= |users|
    ensures forall u :: u in r <==> u in users && u.active && AppData.Load(issues, u.accountId) < MaxTasksPerUser
  {
    if users == [] then []
    else
      var rest := FreeUsers(users[1..], issues);
      assert forall u :: u in users <==> u == users[0] || u in users[1..];
      if users[0].active && AppData.Load(issues, users[0].accountId) < MaxTasksPerUser then [users[0]] + rest else rest
  }

  /** Positions of the unassigned issues, in order. */
  function UnassignedAt(issues: seq<Issue>): (ps: seq<nat>)
    ensures forall k :: 0 <= k < |ps| ==> ps[k] < |issues| && issues[ps[k]].assignee.None?
    ensures forall k, l :: 0 <= k < l < |ps| ==> ps[k] < ps[l]
    ensures forall p :: 0 <= p < |issues| && issues[p].assignee.None? ==> p in ps
  {
    if issues == [] then []
    else
      var ps := UnassignedAt(issues[..|issues| - 1]);
      if issues[|issues| - 1].assignee.None? then ps + [|issues| - 1] else ps
  }

  /** `mockIssues.filter(issue => !issue.assignee)`. */
  function Unassigned(issues: seq<Issue>): (r: seq<Issue>)
    ensures |r| == |UnassignedAt(issues)|
  {
    var ps := UnassignedAt(issues);
    seq(|ps|, k requires 0 <= k < |ps| => issues[ps[k]])
  }

  /** Giving an unassigned issue to `u` raises `u`'s load by one and nobody else's. */
  lemma {:induction false} LoadAfterAssign(issues: seq<Issue>, p: nat, u: User, now: string, id: string)
    requires p < |issues| && issues[p].assignee.None?
    ensures AppData.Load(issues[p := issues[p].(assignee := Some(u), updated := now)], id)
         == AppData.Load(issues, id) + (if u.accountId == id then 1 else 0)
  {
    var r := issues[p := issues[p].(assignee := Some(u), updated := now)];
    if p == 0 {
      assert r[1..] == issues[1..];
    } else {
      LoadAfterAssign(issues[1..], p - 1, u, now, id);
      assert r[1..] == issues[1..][p - 1 := issues[p].(assignee := Some(u), updated := now)];
    }
  }

  predicate AllBusy(users: seq<User>, issues: seq<Issue>)
  {
    forall u :: u in users && u.active ==> AppData.Load(issues, u.accountId) >= MaxTasksPerUser
  }

  /** The single-file API's roster has `user5` inactive, so its random pass never picks them. */
  lemma {:induction false} LegacyPassSkipsUser5(issues: seq<Issue>)
    ensures forall u :: u in FreeUsers(LegacyRoster(), issues) ==> u.accountId != "user5"
  {
  }

  // ---------------------------------------------------------------------------
  // The replies of the dispatcher

  // ---------------------------------------------------------------------------
  // What the random pass keeps true after each issue of the snapshot

  /** The array has the same positions and keys as at the start, and positions not yet visited are untouched. */
  ghost predicate ShapeKept(start: seq<Issue>, ps: seq<nat>, issues: seq<Issue>, i: nat)
    requires i <= |ps|
  {
    && |issues| == |start| && UniqueKeys(issues)
    && (forall p :: 0 <= p < |issues| ==> issues[p].key == start[p].key)
    && (forall p :: 0 <= p < |issues| && p !in ps[..i] ==> issues[p] == start[p])
  }

  /** Result `k` is about snapshot issue `k`: a success gave it to an active user of the
      roster, a failure left it alone and found everybody busy. */
  ghost predicate ResultsFaithful(start: seq<Issue>, ps: seq<nat>, users: seq<User>, clock: nat -> string,
                                  issues: seq<Issue>, results: seq<AssignResult>)
    requires |results| <= |ps| && |issues| == |start|
    requires forall k :: 0 <= k < |ps| ==> ps[k] < |start|
  {
    && (forall k :: 0 <= k < |results| ==> results[k].issueKey == start[ps[k]].key)
    && (forall k :: 0 <= k < |results| && results[k].success ==>
          && issues[ps[k]].assignee.Some?
          && var u := issues[ps[k]].assignee.value;
          && u in users && u.active
          && issues[ps[k]] == start[ps[k]].(assignee := Some(u), updated := clock(k))
          && results[k].assignedTo == Some(u.displayName))
    && (forall k :: 0 <= k < |results| && !results[k].success ==>
          && issues[ps[k]] == start[ps[k]]
          && results[k].error == Some(NoFreeUserError)
          && AllBusy(users, issues))
  }

  /** Loads only grow, and a load that grew is at most two. */
  ghost predicate LoadsCapped(start: seq<Issue>, issues: seq<Issue>)
  {
    && (forall id :: AppData.Load(issues, id) >= AppData.Load(start, id))
    && (forall id :: AppData.Load(issues, id) <= MaxTasksPerUser || AppData.Load(issues, id) == AppData.Load(start, id))
  }

  /** Giving the next snapshot issue to a free user keeps all three. */
  lemma {:induction false} AssignKeepsProgress(start: seq<Issue>, users: seq<User>, clock: nat -> string,
                                               issues: seq<Issue>, results: seq<AssignResult>, u: User)
    requires var ps := UnassignedAt(start);
      && |results| < |ps| && ShapeKept(start, ps, issues, |results|)
      && ResultsFaithful(start, ps, users, clock, issues, results) && LoadsCapped(start, issues)
    requires u in FreeUsers(users, issues)
    ensures var ps := UnassignedAt(start);
      var i := |results|;
      var p := ps[i];
      var issues' := issues[p := issues[p].(assignee := Some(u), updated := clock(i))];
      var results' := results + [Assigned(start[p].key, u.displayName)];
      && FindIndex(issues, start[p].key) == Some(p)
      && ShapeKept(start, ps, issues', i + 1)
      && ResultsFaithful(start, ps, users, clock, issues', results')
      && LoadsCapped(start, issues')
  {
    var ps := UnassignedAt(start);
    var i := |results|;
    var p := ps[i];
    FindIndexOfUniqueKey(issues, p);
    assert p !in ps[..i];
    AssignKeepsShape(start, ps, issues, i, u, clock(i));
    AssignKeepsLoads(start, issues, p, u, clock(i));
    assert forall k :: 0 <= k < i ==> ps[k] != p;
    AssignKeepsResults(start, ps, users, clock, issues, results, u);
  }

  lemma {:induction false} AssignKeepsShape(start: seq<Issue>, ps: seq<nat>, issues: seq<Issue>, i: nat, u: User, now: string)
    requires i < |ps| && ps[i] < |issues| && ShapeKept(start, ps, issues, i)
    ensures ShapeKept(start, ps, issues[ps[i] := issues[ps[i]].(assignee := Some(u), updated := now)], i + 1)
  {
    var p := ps[i];
    assert forall q :: q in ps[..i + 1] <==> q in ps[..i] || q == p by {
      assert ps[..i + 1] == ps[..i] + [p];
    }
  }

  lemma {:induction false} AssignKeepsLoads(start: seq<Issue>, issues: seq<Issue>, p: nat, u: User, now: string)
    requires p < |issues| && issues[p].assignee.None?
    requires LoadsCapped(start, issues) && AppData.Load(issues, u.accountId) < MaxTasksPerUser
    ensures LoadsCapped(start, issues[p := issues[p].(assignee := Some(u), updated := now)])
  {
    var issues' := issues[p := issues[p].(assignee := Some(u), updated := now)];
    forall id
      ensures AppData.Load(issues', id) == AppData.Load(issues, id) + (if u.accountId == id then 1 else 0)
    {
      LoadAfterAssign(issues, p, u, now, id);
    }
  }

  lemma {:induction false} AssignKeepsResults(start: seq<Issue>, ps: seq<nat>, users: seq<User>, clock: nat -> string,
                                              issues: seq<Issue>, results: seq<AssignResult>, u: User)
    requires |results| < |ps| && |issues| == |start|
    requires forall k :: 0 <= k < |ps| ==> ps[k] < |start|
    requires forall k :: 0 <= k < |results| ==> ps[k] != ps[|results|]
    requires issues[ps[|results|]] == start[ps[|results|]]
    requires ResultsFaithful(start, ps, users, clock, issues, results)
    requires u in users && u.active && AppData.Load(issues, u.accountId) < MaxTasksPerUser
    ensures var p := ps[|results|];
      ResultsFaithful(start, ps, users, clock, issues[p := issues[p].(assignee := Some(u), updated := clock(|results|))],
                      results + [Assigned(start[p].key, u.displayName)])
  {
    var i := |results|;
    var p := ps[i];
    var issues' := issues[p := issues[p].(assignee := Some(u), updated := clock(i))];
    var results' := results + [Assigned(start[p].key, u.displayName)];
    EarlierAssigned(start, ps, users, clock, issues, results, u);
    forall k | 0 <= k < i + 1
      ensures results'[k].issueKey == start[ps[k]].key
      ensures results'[k].success
      ensures issues'[ps[k]].assignee.Some?
      ensures var v := issues'[ps[k]].assignee.value;
        && v in users && v.active
        && issues'[ps[k]] == start[ps[k]].(assignee := Some(v), updated := clock(k))
        && results'[k].assignedTo == Some(v.displayName)
    {
      if k < i {
        assert results'[k] == results[k] && issues'[ps[k]] == issues[ps[k]];
      }
    }
  }

  /** After a failure everybody stays busy, `u` included: so, with `u` free, every
      earlier issue of the snapshot was assigned. */
  lemma {:induction false} EarlierAssigned(start: seq<Issue>, ps: seq<nat>, users: seq<User>, clock: nat -> string,
                                           issues: seq<Issue>, results: seq<AssignResult>, u: User)
    requires |results| <= |ps| && |issues| == |start|
    requires forall k :: 0 <= k < |ps| ==> ps[k] < |start|
    requires ResultsFaithful(start, ps, users, clock, issues, results)
    requires u in users && u.active && AppData.Load(issues, u.accountId) < MaxTasksPerUser
    ensures forall k :: 0 <= k < |results| ==> results[k].success
  {
    forall k | 0 <= k < |results|
      ensures results[k].success
    {
      if !results[k].success {
        assert false;
      }
    }
  }

  /** Recording a failure when nobody is free keeps all three. */
  lemma {:induction false} FailKeepsProgress(start: seq<Issue>, users: seq<User>, clock: nat -> string,
                                             issues: seq<Issue>, results: seq<AssignResult>)
    requires var ps := UnassignedAt(start);
      && |results| < |ps| && ShapeKept(start, ps, issues, |results|)
      && ResultsFaithful(start, ps, users, clock, issues, results) && LoadsCapped(start, issues)
    requires FreeUsers(users, issues) == []
    ensures var ps := UnassignedAt(start);
      var results' := results + [Failed(start[ps[|results|]].key, Some(NoFreeUserError))];
      && ShapeKept(start, ps, issues, |results| + 1)
      && ResultsFaithful(start, ps, users, clock, issues, results')
  {
    var ps := UnassignedAt(start);
    var i := |results|;
    assert issues[ps[i]] == start[ps[i]] by {
      assert ps[i] !in ps[..i];
    }
    assert AllBusy(users, issues) by {
      forall u | u in users && u.active
        ensures AppData.Load(issues, u.accountId) >= MaxTasksPerUser
      {
        assert u !in FreeUsers(users, issues);
      }
    }
    FailKeepsShape(start, ps, issues, i);
    FailKeepsResults(start, ps, users, clock, issues, results);
  }

  lemma {:induction false} FailKeepsShape(start: seq<Issue>, ps: seq<nat>, issues: seq<Issue>, i: nat)
    requires i < |ps| && ShapeKept(start, ps, issues, i)
    ensures ShapeKept(start, ps, issues, i + 1)
  {
    assert forall q :: q in ps[..i] ==> q in ps[..i + 1] by {
      assert ps[..i + 1] == ps[..i] + [ps[i]];
    }
  }

  lemma {:induction false} FailKeepsResults(start: seq<Issue>, ps: seq<nat>, users: seq<User>, clock: nat -> string,
                                            issues: seq<Issue>, results: seq<AssignResult>)
    requires |results| < |ps| && |issues| == |start|
    requires forall k :: 0 <= k < |ps| ==> ps[k] < |start|
    requires issues[ps[|results|]] == start[ps[|results|]] && AllBusy(users, issues)
    requires ResultsFaithful(start, ps, users, clock, issues, results)
    ensures ResultsFaithful(start, ps, users, clock, issues,
                            results + [Failed(start[ps[|results|]].key, Some(NoFreeUserError))])
  {
    var results' := results + [Failed(start[ps[|results|]].key, Some(NoFreeUserError))];
    assert forall k :: 0 <= k < |results| ==> results'[k] == results[k];
  }

  datatype MockReply =
    | IssuesReply(issues: seq<Issue>, projectKey: string)
    | UsersReply(users: seq<User>)
    | ProjectsReply(projects: seq<Project>)
    | Ack(response: ApiResponse)
    | AutoReply(auto: AutoAssignResponse)

  predicate Succeeded(r: MockReply)
  {
    match r
    case Ack(a) => a.success
    case AutoReply(a) => a.success
    case _ => true
  }

  /** One iteration of the mock pass over the snapshot issue `issue`: pick any
      free user and give them the issue, or record that nobody is free. */
  method MockPassStep(ghost start: seq<Issue>, users: seq<User>, clock: nat -> string,
                      issues: seq<Issue>, results: seq<AssignResult>, issue: Issue)
    returns (issues': seq<Issue>, results': seq<AssignResult>)
    requires var ps := UnassignedAt(start);
      && |results| < |ps| && issue == start[ps[|results|]]
      && ShapeKept(start, ps, issues, |results|)
      && ResultsFaithful(start, ps, users, clock, issues, results) && LoadsCapped(start, issues)
    ensures var ps := UnassignedAt(start);
      && |results'| == |results| + 1
      && ShapeKept(start, ps, issues', |results'|)
      && ResultsFaithful(start, ps, users, clock, issues', results') && LoadsCapped(start, issues')
  {
    var available := FreeUsers(users, issues);
    if |available| > 0 {
      var j :| 0 <= j < |available|;
      var randomUser := available[j];
      AssignKeepsProgress(start, users, clock, issues, results, randomUser);
      var issueIndex := FindIndex(issues, issue.key);
      // the snapshot issue is always found: keys are unique and never change
      if issueIndex.Some? {
        var p := issueIndex.value;
        issues' := issues[p := issues[p].(assignee := Some(randomUser), updated := clock(|results|))];
        results' := results + [Assigned(issue.key, randomUser.displayName)];
      } else {
        issues', results' := issues, results;
      }
    } else {
      FailKeepsProgress(start, users, clock, issues, results);
      issues' := issues;
      results' := results + [Failed(issue.key, Some(NoFreeUserError))];
    }
  }

  /** The invariants of the mock pass, once every snapshot issue is handled. */
  lemma {:induction false} PassOutcome(start: seq<Issue>, users: seq<User>, clock: nat -> string,
                    issues: seq<Issue>, results: seq<AssignResult>)
    requires var ps := UnassignedAt(start);
      && |results| == |ps| && ShapeKept(start, ps, issues, |ps|)
      && ResultsFaithful(start, ps, users, clock, issues, results) && LoadsCapped(start, issues)
    ensures var ps := UnassignedAt(start);
      && |issues| == |start|
      && (forall k :: 0 <= k < |ps| ==> results[k].issueKey == start[ps[k]].key)
      && (forall p :: 0 <= p < |issues| && start[p].assignee.Some? ==> issues[p] == start[p])
      && (forall k :: 0 <= k < |ps| && results[k].success ==>
            && issues[ps[k]].assignee.Some?
            && var u := issues[ps[k]].assignee.value;
            && u in users && u.active
            && issues[ps[k]] == start[ps[k]].(assignee := Some(u), updated := clock(k))
            && results[k].assignedTo == Some(u.displayName))
      && (forall k :: 0 <= k < |ps| && !results[k].success ==>
            && issues[ps[k]] == start[ps[k]]
            && results[k].error == Some(NoFreeUserError)
            && AllBusy(users, issues))
      && (forall id :: AppData.Load(issues, id) <= MaxTasksPerUser
                       || AppData.Load(issues, id) == AppData.Load(start, id))
  {
    var ps := UnassignedAt(start);
    forall p | 0 <= p < |issues| && start[p].assignee.Some?
      ensures issues[p] == start[p]
    {
      assert p !in ps[..|ps|];
    }
  }

  /** What the mock pass promises, from the array `start` it began with to the
      array `issues` it left and its reply `resp`: one result per issue of the
      unassigned snapshot, with its key; a success gave that issue to an active
      roster user, stamped with its iteration's instant; a failure left it alone
      with the fixed error while everybody was busy; issues that had an assignee
      are untouched; no load that grew ends above two; the summary counts the
      successes out of the snapshot size. */
  ghost predicate PassReported(start: seq<Issue>, users: seq<User>, clock: nat -> string,
                               issues: seq<Issue>, resp: AutoAssignResponse)
  {
    var ps := UnassignedAt(start);
    && resp.success && resp.results.Some?
    && var rs := resp.results.value;
    && |rs| == |ps| && |issues| == |start|
    && resp.summary == Some(Summary(SuccessCount(rs), |ps|))
    && (forall k :: 0 <= k < |ps| ==> rs[k].issueKey == start[ps[k]].key)
    && (forall p :: 0 <= p < |issues| && start[p].assignee.Some? ==> issues[p] == start[p])
    && (forall k :: 0 <= k < |ps| && rs[k].success ==>
          && issues[ps[k]].assignee.Some?
          && var u := issues[ps[k]].assignee.value;
          && u in users && u.active
          && issues[ps[k]] == start[ps[k]].(assignee := Some(u), updated := clock(k))
          && rs[k].assignedTo == Some(u.displayName))
    && (forall k :: 0 <= k < |ps| && !rs[k].success ==>
          && issues[ps[k]] == start[ps[k]]
          && rs[k].error == Some(NoFreeUserError)
          && AllBusy(users, issues))
    && (forall id :: AppData.Load(issues, id) <= MaxTasksPerUser
                     || AppData.Load(issues, id) == AppData.Load(start, id))
  }

  /** The module-level state of the mock: the issue array and the roster. */
  class MockStore {
    var issues: seq<Issue>
    const users: seq<User>

    /** Keys stay unique: the seed data has unique keys and no operation changes a key. */
    ghost predicate Valid()
      reads this
    {
      UniqueKeys(issues)
    }

    constructor(seed: seq<Issue>, roster: seq<User>)
      requires UniqueKeys(seed)
      ensures Valid() && issues == seed && users == roster
    {
      issues := seed;
      users := roster;
    }

    method UpdateIssueAssignee(payload: Payload, now: string) returns (resp: ApiResponse)
      requires Valid()
      modifies this
      ensures Valid()
      ensures issues == AssigneeUpdated(old(issues), users, payload, now)
      ensures resp == ApiResponse(true, Some(AssigneeMessagePrefix + Shown(payload.issueKey)), None)
    {
      if Truthy(payload.issueKey) && Truthy(payload.accountId) {
        var issueIndex := FindIndex(issues, payload.issueKey.value);
        var user := FindUser(users, payload.accountId.value);
        if issueIndex.Some? && user.Some? {
          var p := issueIndex.value;
          issues := issues[p := issues[p].(assignee := user, updated := now)];
        }
      }
      resp := ApiResponse(true, Some(AssigneeMessagePrefix + Shown(payload.issueKey)), None);
    }

    method UpdateIssuePriority(payload: Payload, now: string) returns (resp: ApiResponse)
      requires Valid()
      modifies this
      ensures Valid()
      ensures issues == PriorityUpdated(old(issues), payload, now)
      ensures resp == ApiResponse(true, Some(PriorityMessagePrefix + Shown(payload.issueKey)), None)
    {
      if Truthy(payload.issueKey) && Truthy(payload.priorityId) {
        var issueIndex := FindIndex(issues, payload.issueKey.value);
        if issueIndex.Some? {
          var p := issueIndex.value;
          var id := payload.priorityId.value;
          issues := issues[p := issues[p].(priority := Priority(PriorityName(id), id), updated := now)];
        }
      }
      resp := ApiResponse(true, Some(PriorityMessagePrefix + Shown(payload.issueKey)), None);
    }

    /** The mock auto-assign pass. Before each issue of the unassigned snapshot it
        re-counts the loads and picks any active user below two; the pick is
        unspecified, standing for `Math.random`. `clock(k)` is the instant the
        k-th iteration stamps on the issue it assigns. */
    method AutoAssignUnassigned(clock: nat -> string) returns (resp: AutoAssignResponse)
      requires Valid()
      modifies this
      ensures Valid()
      ensures PassReported(old(issues), users, clock, issues, resp)
    {
      ghost var start := issues;
      var snapshot := Unassigned(issues);
      ghost var ps := UnassignedAt(issues);
      var results: seq<AssignResult> := [];
      for i := 0 to |snapshot|
        invariant |results| == i
        invariant ShapeKept(start, ps, issues, i)
        invariant ResultsFaithful(start, ps, users, clock, issues, results)
        invariant LoadsCapped(start, issues)
      {
        issues, results := MockPassStep(start, users, clock, issues, results, snapshot[i]);
      }
      PassOutcome(start, users, clock, issues, results);
      resp := AutoAssignResponse(true, None, None, Some(results), Some(Summary(SuccessCount(results), |snapshot|)));
    }

    /** `getMockData`: dispatch on the function name. `currentKey` is the
        project key in context, if any; `clock(k)` is the k-th instant the call
        reads, so an update stamps `clock(0)`. */
    method GetMockData(functionName: string, payload: Payload, clock: nat -> string, currentKey: Option<string>)
      returns (reply: MockReply)
      requires Valid()
      modifies this
      ensures Valid()
      ensures functionName == "getProjectIssues" ==>
        reply == IssuesReply(old(issues), IssueMapping.OrDefault(currentKey, "SCRUM")) && issues == old(issues)
      ensures functionName == "getProjectUsers" ==> reply == UsersReply(users) && issues == old(issues)
      ensures functionName == "getProjects" ==> reply == ProjectsReply(MockProjects()) && issues == old(issues)
      ensures functionName == "updateIssueAssignee" ==>
        reply.Ack? && issues == AssigneeUpdated(old(issues), users, payload, clock(0))
      ensures functionName == "updateIssuePriority" ==>
        reply.Ack? && issues == PriorityUpdated(old(issues), payload, clock(0))
      ensures functionName == "autoAssignUnassigned" ==>
        reply.AutoReply? && PassReported(old(issues), users, clock, issues, reply.auto)
      ensures Succeeded(reply) <==> functionName in KnownFunctions()
      ensures functionName !in KnownFunctions() ==>
        reply == Ack(ApiResponse(false, None, Some(UnknownFunctionPrefix + functionName))) && issues == old(issues)
    {
      if functionName == "getProjectIssues" {
        reply := IssuesReply(issues, IssueMapping.OrDefault(currentKey, "SCRUM"));
      } else if functionName == "getProjectUsers" {
        reply := UsersReply(users);
      } else if functionName == "updateIssueAssignee" {
        var r := UpdateIssueAssignee(payload, clock(0));
        reply := Ack(r);
      } else if functionName == "updateIssuePriority" {
        var r := UpdateIssuePriority(payload, clock(0));
        reply := Ack(r);
      } else if functionName == "autoAssignUnassigned" {
        var r := AutoAssignUnassigned(clock);
        reply := AutoReply(r);
      } else if functionName == "getProjects" {
        reply := ProjectsReply(MockProjects());
      } else {
        reply := Ack(ApiResponse(false, None, Some(UnknownFunctionPrefix + functionName)));
      }
    }
  }

  function KnownFunctions(): set<string>
  {
    {"getProjectIssues", "getProjectUsers", "updateIssueAssignee", "updateIssuePriority",
     "autoAssignUnassigned", "getProjects"}
  }
}
