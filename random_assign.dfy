/** The earlier auto-assign pass of the two single-file API clients (the
    TypeScript one and the JavaScript one). It computes once, before the loop,
    the active users holding fewer than two issues, then gives every unassigned
    issue to a user drawn at random from that fixed set; nothing is decremented,
    so one user may be drawn any number of times. The draws are the sequence
    `picks` of indices into the eligible set. */
module RandomAssign {
  import opened Jira
  import AutoAssign
  import MockBackend
  import IssueMapping

  const NoEligibleError := "Нет доступных пользователей для назначения (все имеют максимальную загрузку 2/2 задачи)"

  /** The two clients differ only in how a rejected PUT's error is recorded. */
  datatype Dialect = TypeScript | JavaScript

  /** TypeScript: the message of an `Error`, else a fixed text. JavaScript reads
      `error.message` unguarded, which is undefined for a thrown non-`Error`. */
  function LiveErrorText(d: Dialect, t: Thrown): (e: Option<string>)
    ensures t.ErrorValue? ==> e == Some(t.message)
    ensures d == TypeScript ==> e.Some?
  {
    match d
    case TypeScript => Some(AutoAssign.ErrorText(t))
    case JavaScript => if t.ErrorValue? then Some(t.message) else None
  }

  /** Issues whose assignee, whatever its accountId, is `accountId`. */
  function RawLoad(allIssues: seq<IssueDto>, accountId: string): (n: nat)
    ensures n <= |allIssues|
  {
    if allIssues == [] then 0
    else (if allIssues[0].fields.assignee.Some? && allIssues[0].fields.assignee.value.accountId == accountId then 1 else 0)
         + RawLoad(allIssues[1..], accountId)
  }

  /** The users the pass draws from: active, holding fewer than two issues, in roster order. */
  function Eligible(users: seq<User>, allIssues: seq<IssueDto>): (r: seq<User>)
    ensures |r| <= |users|
    ensures forall u :: u in r <==> u in users && u.active && RawLoad(allIssues, u.accountId) < MaxTasksPerUser
  {
    if users == [] then []
    else
      var rest := Eligible(users[1..], allIssues);
      assert forall u :: u in users <==> u == users[0] || u in users[1..];
      if users[0].active && RawLoad(allIssues, users[0].accountId) < MaxTasksPerUser then [users[0]] + rest else rest
  }

  /** `picks` holds one draw per issue, each an index into a set of `n` users. */
  predicate PicksFit(picks: seq<nat>, issues: nat, n: nat)
  {
    |picks| == issues && forall k :: 0 <= k < |picks| ==> picks[k] < n
  }

  /** The loop over the first issues, one result each. */
  function RandomRun(d: Dialect, issues: seq<IssueDto>, eligible: seq<User>, picks: seq<nat>,
                     put: (nat, string) -> PutOutcome): (rs: seq<AssignResult>)
    requires PicksFit(picks, |issues|, |eligible|)
    ensures |rs| == |issues|
    decreases |issues|
  {
    if issues == [] then []
    else
      var n := |issues| - 1;
      var rs := RandomRun(d, issues[..n], eligible, picks[..n], put);
      var user := eligible[picks[n]];
      match put(n, user.accountId)
      case PutOk => rs + [Assigned(issues[n].key, user.displayName)]
      case PutFailed(t) => rs + [Failed(issues[n].key, LiveErrorText(d, t))]
  }

  /** The pass as the caller sees it, for given draws. */
  function RandomPass(d: Dialect, unassigned: seq<IssueDto>, users: seq<User>, allIssues: seq<IssueDto>,
                      picks: seq<nat>, put: (nat, string) -> PutOutcome): AutoAssignResponse
    requires |Eligible(users, allIssues)| > 0 ==> PicksFit(picks, |unassigned|, |Eligible(users, allIssues)|)
  {
    if |unassigned| == 0 then
      AutoAssignResponse(true, Some(NoUnassignedMessage), None, None, None)
    else
      var eligible := Eligible(users, allIssues);
      if |eligible| == 0 then
        AutoAssignResponse(false, None, Some(NoEligibleError), None, None)
      else
        var rs := RandomRun(d, unassigned, eligible, picks, put);
        AutoAssignResponse(true, None, None, Some(rs), Some(Summary(SuccessCount(rs), |unassigned|)))
  }

  /** `JiraAPI.autoAssignUnassigned` of either client, given the three fetched
      snapshots. The draws are unspecified; `picks` records them. */
  method RandomAutoAssign(d: Dialect, unassigned: seq<IssueDto>, users: seq<User>, allIssues: seq<IssueDto>,
                          put: (nat, string) -> PutOutcome)
    returns (resp: AutoAssignResponse, ghost picks: seq<nat>)
    ensures |Eligible(users, allIssues)| > 0 ==> PicksFit(picks, |unassigned|, |Eligible(users, allIssues)|)
    ensures resp == RandomPass(d, unassigned, users, allIssues, picks, put)
  {
    picks := [];
    var activeUsers := Eligible(users, allIssues);
    if |unassigned| == 0 {
      if |activeUsers| > 0 {
        picks := [];
      }
      return AutoAssignResponse(true, Some(NoUnassignedMessage), None, None, None), picks;
    }
    if |activeUsers| == 0 {
      return AutoAssignResponse(false, None, Some(NoEligibleError), None, None), picks;
    }
    var results: seq<AssignResult> := [];
    for i := 0 to |unassigned|
      invariant PicksFit(picks, i, |activeUsers|)
      invariant results == RandomRun(d, unassigned[..i], activeUsers, picks, put)
    {
      var j, r := RandomIteration(d, unassigned, activeUsers, picks, put, i);
      picks := picks + [j];
      results := results + [r];
    }
    assert unassigned[..|unassigned|] == unassigned;
    var successCount := SuccessCount(results);
    resp := AutoAssignResponse(true, None, None, Some(results), Some(Summary(successCount, |unassigned|)));
  }

  /** One iteration of the loop: draw a user for issue `i`, PUT, and record the outcome. */
  method RandomIteration(d: Dialect, unassigned: seq<IssueDto>, activeUsers: seq<User>, ghost picks: seq<nat>,
                         put: (nat, string) -> PutOutcome, i: nat)
    returns (j: nat, r: AssignResult)
    requires i < |unassigned| && 0 < |activeUsers| && PicksFit(picks, i, |activeUsers|)
    ensures PicksFit(picks + [j], i + 1, |activeUsers|)
    ensures RandomRun(d, unassigned[..i + 1], activeUsers, picks + [j], put)
      == RandomRun(d, unassigned[..i], activeUsers, picks, put) + [r]
  {
    j :| 0 <= j < |activeUsers|;
    RandomRunNext(d, unassigned, activeUsers, picks, j, put, i);
    var randomUser := activeUsers[j];
    match put(i, randomUser.accountId)
    case PutOk =>
      r := Assigned(unassigned[i].key, randomUser.displayName);
    case PutFailed(t) =>
      r := Failed(unassigned[i].key, LiveErrorText(d, t));
  }

  /** One more iteration of the loop: the draw `j` for issue `i` adds one result. */
  lemma {:induction false} RandomRunNext(d: Dialect, issues: seq<IssueDto>, eligible: seq<User>, picks: seq<nat>,
                                         j: nat, put: (nat, string) -> PutOutcome, i: nat)
    requires i < |issues| && PicksFit(picks, i, |eligible|) && j < |eligible|
    ensures PicksFit(picks + [j], i + 1, |eligible|)
    ensures RandomRun(d, issues[..i + 1], eligible, picks + [j], put)
      == RandomRun(d, issues[..i], eligible, picks, put)
         + [match put(i, eligible[j].accountId)
            case PutOk => Assigned(issues[i].key, eligible[j].displayName)
            case PutFailed(t) => Failed(issues[i].key, LiveErrorText(d, t))]
  {
    assert issues[..i + 1][..i] == issues[..i];
    assert (picks + [j])[..i] == picks;
  }

  // ---------------------------------------------------------------------------
  // What the pass guarantees

  /** Result `k` is about issue `k`; it is a success exactly when the PUT for the
      user drawn for it succeeded, and then names that user; otherwise it records
      the error. */
  lemma {:induction false} RandomRunResults(d: Dialect, issues: seq<IssueDto>, eligible: seq<User>, picks: seq<nat>,
                                            put: (nat, string) -> PutOutcome)
    requires PicksFit(picks, |issues|, |eligible|)
    ensures var rs := RandomRun(d, issues, eligible, picks, put);
      forall k :: 0 <= k < |issues| ==>
        var user := eligible[picks[k]];
        && rs[k].issueKey == issues[k].key
        && (rs[k].success <==> put(k, user.accountId) == PutOk)
        && (rs[k].success ==> rs[k].assignedTo == Some(user.displayName))
        && (!rs[k].success ==> rs[k].error == LiveErrorText(d, put(k, user.accountId).thrown))
  {
    forall k | 0 <= k < |issues|
      ensures var rs := RandomRun(d, issues, eligible, picks, put);
        var user := eligible[picks[k]];
        && rs[k].issueKey == issues[k].key
        && (rs[k].success <==> put(k, user.accountId) == PutOk)
        && (rs[k].success ==> rs[k].assignedTo == Some(user.displayName))
        && (!rs[k].success ==> rs[k].error == LiveErrorText(d, put(k, user.accountId).thrown))
    {
      RandomResultAt(d, issues, eligible, picks, put, k);
    }
  }

  lemma {:induction false} RandomResultAt(d: Dialect, issues: seq<IssueDto>, eligible: seq<User>, picks: seq<nat>,
                                          put: (nat, string) -> PutOutcome, k: nat)
    requires PicksFit(picks, |issues|, |eligible|) && k < |issues|
    ensures var rs := RandomRun(d, issues, eligible, picks, put);
      var user := eligible[picks[k]];
      && rs[k].issueKey == issues[k].key
      && (rs[k].success <==> put(k, user.accountId) == PutOk)
      && (rs[k].success ==> rs[k].assignedTo == Some(user.displayName))
      && (!rs[k].success ==> rs[k].error == LiveErrorText(d, put(k, user.accountId).thrown))
    decreases |issues|
  {
    var n := |issues| - 1;
    if k < n {
      RandomResultAt(d, issues[..n], eligible, picks[..n], put, k);
      var rs' := RandomRun(d, issues[..n], eligible, picks[..n], put);
      assert RandomRun(d, issues, eligible, picks, put)[k] == rs'[k];
      assert issues[..n][k] == issues[k] && picks[..n][k] == picks[k];
    }
  }

  /** An empty backlog gives a message and no results, whoever the users are. */
  lemma {:induction false} RandomNothingToAssign(d: Dialect, users: seq<User>, allIssues: seq<IssueDto>,
                                                 put: (nat, string) -> PutOutcome)
    ensures var r := RandomPass(d, [], users, allIssues, [], put);
      && r.success && r.message == Some(NoUnassignedMessage) && r.results.None? && r.summary.None?
  {
  }

  /** The pass fails exactly when there is work and nobody active holds fewer than two issues. */
  lemma {:induction false} RandomNoEligibleFails(d: Dialect, unassigned: seq<IssueDto>, users: seq<User>,
                                                 allIssues: seq<IssueDto>, picks: seq<nat>,
                                                 put: (nat, string) -> PutOutcome)
    requires |Eligible(users, allIssues)| > 0 ==> PicksFit(picks, |unassigned|, |Eligible(users, allIssues)|)
    ensures var r := RandomPass(d, unassigned, users, allIssues, picks, put);
      && (!r.success <==>
            (|unassigned| > 0 && forall u :: u in users && u.active ==> RawLoad(allIssues, u.accountId) >= MaxTasksPerUser))
      && (!r.success ==> r.error == Some(NoEligibleError) && r.results.None?)
  {
    var e := Eligible(users, allIssues);
    if |e| > 0 {
      assert e[0] in e;
    }
  }

  /** When the pass runs, it reports success with one result per issue, each success
      naming an eligible user, and a summary counting the successes. */
  lemma {:induction false} RandomPassResults(d: Dialect, unassigned: seq<IssueDto>, users: seq<User>,
                                             allIssues: seq<IssueDto>, picks: seq<nat>,
                                             put: (nat, string) -> PutOutcome)
    requires |unassigned| > 0 && |Eligible(users, allIssues)| > 0
    requires PicksFit(picks, |unassigned|, |Eligible(users, allIssues)|)
    ensures var r := RandomPass(d, unassigned, users, allIssues, picks, put);
      && r.success && r.results.Some? && |r.results.value| == |unassigned|
      && r.summary == Some(Summary(SuccessCount(r.results.value), |unassigned|))
      && forall k :: 0 <= k < |unassigned| && r.results.value[k].success ==>
           exists u :: u in Eligible(users, allIssues) && r.results.value[k].assignedTo == Some(u.displayName)
  {
    var e := Eligible(users, allIssues);
    RandomRunResults(d, unassigned, e, picks, put);
    var rs := RandomRun(d, unassigned, e, picks, put);
    forall k | 0 <= k < |unassigned| && rs[k].success
      ensures exists u :: u in e && rs[k].assignedTo == Some(u.displayName)
    {
      assert e[picks[k]] in e;
    }
  }

  // ---------------------------------------------------------------------------
  // The stateless mock of the JavaScript client

  /** `getMockData` of the JavaScript client: every known name gets a canned
      success reply and nothing is stored, so the updates change no issue; any
      other name gets the unknown-function error. `cannedIssues` is the canned
      issue list and `currentKey` the project key in context, if any. */
  function StatelessMockReply(functionName: string, payload: MockBackend.Payload,
                              cannedIssues: seq<Issue>, currentKey: Option<string>): (r: MockBackend.MockReply)
    ensures MockBackend.Succeeded(r) <==> functionName in MockBackend.KnownFunctions()
    ensures functionName == "getProjectIssues" ==>
      r == MockBackend.IssuesReply(cannedIssues, if currentKey.Some? && currentKey.value != "" then currentKey.value else "SCRUM")
    ensures functionName == "getProjectUsers" ==>
      r.UsersReply? && |r.users| == 5 && (forall u :: u in r.users && u.active ==> u.accountId != "user5")
    ensures functionName == "getProjects" ==> r == MockBackend.ProjectsReply(MockBackend.MockProjects())
    ensures functionName == "updateIssueAssignee" ==>
      r == MockBackend.Ack(ApiResponse(true, Some(MockBackend.AssigneeMessagePrefix + MockBackend.Shown(payload.issueKey)), None))
    ensures functionName == "updateIssuePriority" ==>
      r == MockBackend.Ack(ApiResponse(true, Some(MockBackend.PriorityMessagePrefix + MockBackend.Shown(payload.issueKey)), None))
    ensures functionName == "autoAssignUnassigned" ==>
      r.AutoReply? && r.auto.success && r.auto.results.Some? && |r.auto.results.value| == 2
    ensures functionName !in MockBackend.KnownFunctions() ==>
      r == MockBackend.Ack(ApiResponse(false, None, Some(MockBackend.UnknownFunctionPrefix + functionName)))
  {
    if functionName == "getProjectIssues" then
      MockBackend.IssuesReply(cannedIssues, IssueMapping.OrDefault(currentKey, "SCRUM"))
    else if functionName == "getProjectUsers" then
      MockBackend.UsersReply(MockBackend.LegacyRoster())
    else if functionName == "updateIssueAssignee" then
      MockBackend.Ack(ApiResponse(true, Some(MockBackend.AssigneeMessagePrefix + MockBackend.Shown(payload.issueKey)), None))
    else if functionName == "updateIssuePriority" then
      MockBackend.Ack(ApiResponse(true, Some(MockBackend.PriorityMessagePrefix + MockBackend.Shown(payload.issueKey)), None))
    else if functionName == "autoAssignUnassigned" then
      MockBackend.AutoReply(CannedPass())
    else if functionName == "getProjects" then
      MockBackend.ProjectsReply(MockBackend.MockProjects())
    else
      MockBackend.Ack(ApiResponse(false, None, Some(MockBackend.UnknownFunctionPrefix + functionName)))
  }

  /** The canned reply of the stateless auto-assign case: two issues, both assigned. */
  function CannedPass(): AutoAssignResponse
  {
    AutoAssignResponse(true, None, None,
      Some([Assigned("SCRUM-2", "Иван Иванов"), Assigned("SCRUM-5", "Мария Петрова")]),
      Some(Summary(2, 2)))
  }

  /** The canned pass is one a real pass could report: its summary counts its own
      successes out of its results, each success names a different active user of
      the client's roster, and nobody gets more than two issues. */
  lemma {:induction false} CannedPassConsistent()
    ensures var r := CannedPass();
      var rs := r.results.value;
      && r.summary == Some(Summary(SuccessCount(rs), |rs|))
      && (forall k :: 0 <= k < |rs| ==>
            exists u :: u in MockBackend.LegacyRoster() && u.active && rs[k].assignedTo == Some(u.displayName))
      && (forall k, l :: 0 <= k < l < |rs| ==> rs[k].assignedTo != rs[l].assignedTo)
  {
    var rs := CannedPass().results.value;
    var roster := MockBackend.LegacyRoster();
    assert SuccessCount(rs) == 2 by {
      SuccessCountAppend([], rs[0]);
      assert [] + [rs[0]] == [rs[0]];
      SuccessCountAppend([rs[0]], rs[1]);
      assert [rs[0]] + [rs[1]] == rs;
    }
    assert roster[0] in roster && roster[1] in roster;
  }

  // ---------------------------------------------------------------------------
  // The cap is checked once, before the loop

  function Member(id: string): User
  {
    User(id, "Member " + id, None, "", true)
  }

  function Hit(key: string, assignee: Option<AssigneeDto>): IssueDto
  {
    IssueDto(key, key, FieldsDto(None, None, assignee, None, None, None, None))
  }

  function AcceptAll(): (nat, string) -> PutOutcome
  {
    (pos: nat, accountId: string) => PutOk
  }

  /** One member already holds one issue, so they are eligible; with three
      unassigned issues and every PUT accepted, the pass may hand all three to
      them, leaving them four issues against a cap of two. */
  lemma RandomPassExceedsCap()
    ensures var u := Member("u1");
      var held := Hit("P-1", Some(AssigneeDto(u.accountId, u.displayName, None, "")));
      var unassigned := [Hit("P-2", None), Hit("P-3", None), Hit("P-4", None)];
      var r := RandomPass(TypeScript, unassigned, [u], [held] + unassigned, [0, 0, 0], AcceptAll());
      && r.results.Some?
      && (forall k :: 0 <= k < 3 ==> r.results.value[k] == Assigned(unassigned[k].key, u.displayName))
      && RawLoad([held] + unassigned, u.accountId) + SuccessCount(r.results.value) == 4 > MaxTasksPerUser
  {
    var u := Member("u1");
    var held := Hit("P-1", Some(AssigneeDto(u.accountId, u.displayName, None, "")));
    var unassigned := [Hit("P-2", None), Hit("P-3", None), Hit("P-4", None)];
    var all := [held] + unassigned;
    assert RawLoad(all[3..], u.accountId) == 0;
    assert RawLoad(all[2..], u.accountId) == 0;
    assert RawLoad(all[1..], u.accountId) == 0;
    assert RawLoad(all, u.accountId) == 1;
    assert Eligible([u], all) == [u];
    var picks := [0, 0, 0];
    RandomPassResults(TypeScript, unassigned, [u], all, picks, AcceptAll());
    RandomRunResults(TypeScript, unassigned, [u], picks, AcceptAll());
    var rs := RandomRun(TypeScript, unassigned, [u], picks, AcceptAll());
    assert rs == [Assigned("P-2", u.displayName), Assigned("P-3", u.displayName), Assigned("P-4", u.displayName)];
    assert SuccessCount(rs[2..]) == 1 by { assert rs[2..][1..] == []; }
    assert SuccessCount(rs[1..]) == 2 by { assert rs[1..][1..] == rs[2..]; }
    assert SuccessCount(rs) == 3;
  }
}
