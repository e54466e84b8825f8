/** What the round-robin pass guarantees: one result per issue in order, capacity
    consumed only by successful PUTs and never past the cap, exhaustion that
    lasts for the rest of the pass, and a summary that counts the successes. */
module AutoAssignProps {
  import opened Jira
  import opened AutoAssign

  /** How many results of the pass went to capacity entry `i`. */
  function Picks(ps: seq<Option<nat>>, i: nat): nat
  {
    if ps == [] then 0
    else Picks(ps[..|ps| - 1], i) + (if ps[|ps| - 1] == Some(i) then 1 else 0)
  }

  /** Total capacity left in a list. */
  function TotalRemaining(caps: seq<UserCap>): nat
  {
    if caps == [] then 0 else caps[0].remaining + TotalRemaining(caps[1..])
  }

  /** Every result agrees with its pick: a success went to the recorded entry and
      names that entry's user. */
  predicate Consistent(s: PassState)
  {
    && |s.results| == |s.picks|
    && forall k :: 0 <= k < |s.results| ==>
         && (s.results[k].success <==> s.picks[k].Some?)
         && (s.picks[k].Some? ==>
               s.picks[k].value < |s.caps| && s.results[k].assignedTo == Some(s.caps[s.picks[k].value].user.displayName))
  }

  /** One iteration consumes capacity exactly when the PUT succeeded: one unit from
      the picked entry; a capacity failure or a failed PUT leaves every entry as it
      was. The cursor moves as selection dictates whatever the PUT does. */
  lemma {:induction false} StepCapacity(s: PassState, issue: IssueDto, put: (nat, string) -> PutOutcome)
    requires WellFormed(s)
    ensures var s' := Step(s, issue, put);
      var p := s'.picks[|s.picks|];
      && (s'.results[|s.results|].success <==> p.Some?)
      && (p.Some? ==> p.value < |s.caps| && s.caps[p.value].remaining > 0
                      && s'.caps == s.caps[p.value := s.caps[p.value].(remaining := s.caps[p.value].remaining - 1)]
                      && put(|s.results|, s.caps[p.value].user.accountId) == PutOk)
      && (p.None? ==> s'.caps == s.caps)
      && (forall put' :: Step(s, issue, put').cursor == s'.cursor)
  {
    if NextAvailable(s.caps, s.cursor).0.Some? {
      NextAvailableMeaning(s.caps, s.cursor);
    }
  }

  /** Running over `xs` and then `ys` is running over `xs + ys`. */
  lemma {:induction false} RunCompose(s0: PassState, xs: seq<IssueDto>, ys: seq<IssueDto>, put: (nat, string) -> PutOutcome)
    requires WellFormed(s0)
    ensures Run(Run(s0, xs, put), ys, put) == Run(s0, xs + ys, put)
    decreases |ys|
  {
    if ys == [] {
      assert xs + ys == xs;
    } else {
      var init, last := ys[..|ys| - 1], ys[|ys| - 1];
      RunCompose(s0, xs, init, put);
      assert (xs + ys)[..|xs + ys| - 1] == xs + init;
    }
  }

  /** Results and picks already recorded are never changed. */
  lemma {:induction false} RunKeepsPrefix(s0: PassState, issues: seq<IssueDto>, put: (nat, string) -> PutOutcome)
    requires WellFormed(s0)
    ensures var s := Run(s0, issues, put);
      && s.results[..|s0.results|] == s0.results
      && s.picks[..|s0.picks|] == s0.picks
    decreases |issues|
  {
    if issues != [] {
      var init, last := issues[..|issues| - 1], issues[|issues| - 1];
      RunKeepsPrefix(s0, init, put);
      var mid := Run(s0, init, put);
      var s := Run(s0, issues, put);
      assert s == Step(mid, last, put);
      assert s.results[..|s0.results|] == s.results[..|mid.results|][..|s0.results|];
      assert s.picks[..|s0.picks|] == s.picks[..|mid.picks|][..|s0.picks|];
    }
  }

  /** The result for the k-th issue carries that issue's key. */
  lemma {:induction false} RunKeys(s0: PassState, issues: seq<IssueDto>, put: (nat, string) -> PutOutcome)
    requires WellFormed(s0)
    ensures var s := Run(s0, issues, put);
      forall k :: 0 <= k < |issues| ==> s.results[|s0.results| + k].issueKey == issues[k].key
  {
    forall k | 0 <= k < |issues|
      ensures Run(s0, issues, put).results[|s0.results| + k].issueKey == issues[k].key
    {
      RunKeyAt(s0, issues, put, k);
    }
  }

  lemma {:induction false} RunKeyAt(s0: PassState, issues: seq<IssueDto>, put: (nat, string) -> PutOutcome, k: nat)
    requires WellFormed(s0) && k < |issues|
    ensures Run(s0, issues, put).results[|s0.results| + k].issueKey == issues[k].key
    decreases |issues|
  {
    var init, last := issues[..|issues| - 1], issues[|issues| - 1];
    var mid := Run(s0, init, put);
    var s := Run(s0, issues, put);
    assert s == Step(mid, last, put);
    if k < |init| {
      RunKeyAt(s0, init, put, k);
      assert s.results[|s0.results| + k] == s.results[..|mid.results|][|s0.results| + k];
    }
  }

  /** Results already recorded are never changed, and the result for the k-th
      issue carries that issue's key. */
  lemma {:induction false} RunResults(s0: PassState, issues: seq<IssueDto>, put: (nat, string) -> PutOutcome)
    requires WellFormed(s0)
    ensures var s := Run(s0, issues, put);
      && s.results[..|s0.results|] == s0.results
      && s.picks[..|s0.picks|] == s0.picks
      && forall k :: 0 <= k < |issues| ==> s.results[|s0.results| + k].issueKey == issues[k].key
  {
    RunKeepsPrefix(s0, issues, put);
    RunKeys(s0, issues, put);
  }

  /** The loop keeps every result consistent with its pick. */
  lemma {:induction false} RunConsistent(s0: PassState, issues: seq<IssueDto>, put: (nat, string) -> PutOutcome)
    requires WellFormed(s0) && Consistent(s0)
    ensures Consistent(Run(s0, issues, put))
    decreases |issues|
  {
    if issues != [] {
      var init := issues[..|issues| - 1];
      var mid := Run(s0, init, put);
      assert Consistent(mid) by {
        RunConsistent(s0, init, put);
      }
      StepConsistent(mid, issues[|issues| - 1], put);
    }
  }

  /** One iteration keeps every result consistent with its pick. */
  lemma {:induction false} StepConsistent(s: PassState, issue: IssueDto, put: (nat, string) -> PutOutcome)
    requires WellFormed(s) && Consistent(s)
    ensures Consistent(Step(s, issue, put))
  {
    var s' := Step(s, issue, put);
    StepCapacity(s, issue, put);
    forall k | 0 <= k < |s.results|
      ensures s'.results[k] == s.results[k] && s'.picks[k] == s.picks[k]
    {
      assert s'.results[..|s.results|][k] == s.results[k];
      assert s'.picks[..|s.picks|][k] == s.picks[k];
    }
    forall k | 0 <= k < |s'.results| && s'.picks[k].Some?
      ensures s'.caps[s'.picks[k].value].user == s.caps[s'.picks[k].value].user
    {
      var i := s'.picks[k].value;
      assert UsersOf(s'.caps)[i] == UsersOf(s.caps)[i];
    }
  }

  /** Conservation: remaining capacity plus issues given, per entry, never changes.
      So `remaining` drops by one per successful PUT and by nothing else. */
  lemma {:induction false} CapacityConserved(s0: PassState, issues: seq<IssueDto>, put: (nat, string) -> PutOutcome)
    requires WellFormed(s0)
    ensures var s := Run(s0, issues, put);
      forall i :: 0 <= i < |s0.caps| ==>
        s.caps[i].remaining + Picks(s.picks, i) == s0.caps[i].remaining + Picks(s0.picks, i)
    decreases |issues|
  {
    if issues != [] {
      var init := issues[..|issues| - 1];
      CapacityConserved(s0, init, put);
      var mid := Run(s0, init, put);
      StepCapacity(mid, issues[|issues| - 1], put);
      var s := Run(s0, issues, put);
      assert s.picks[..|s.picks| - 1] == mid.picks;
    }
  }

  /** Within a pass no entry receives more issues than the capacity it started with:
      its current load plus what the pass gave it stays within the cap. */
  lemma {:induction false} AssignmentsWithinCap(unassigned: seq<IssueDto>, users: seq<User>, allIssues: seq<IssueDto>,
                             put: (nat, string) -> PutOutcome, i: nat)
    requires i < |AvailableUsers(users, LoadMap(allIssues))|
    ensures var caps := AvailableUsers(users, LoadMap(allIssues));
      var s := Run(Init(caps), unassigned, put);
      LoadOf(allIssues, caps[i].user.accountId) + Picks(s.picks, i) <= MaxTasksPerUser
  {
    var caps := AvailableUsers(users, LoadMap(allIssues));
    CapacityConserved(Init(caps), unassigned, put);
    LoadMapCounts(allIssues, caps[i].user.accountId);
  }

  /** No two roster members share an accountId. */
  predicate DistinctAccounts(users: seq<User>)
  {
    forall a, b :: 0 <= a < b < |users| ==> users[a].accountId != users[b].accountId
  }

  /** How many results of the pass went to an entry of the account `id`. */
  function Given(caps: seq<UserCap>, ps: seq<Option<nat>>, id: string): nat
  {
    if ps == [] then 0
    else
      var last := ps[|ps| - 1];
      Given(caps, ps[..|ps| - 1], id)
        + (if last.Some? && last.value < |caps| && caps[last.value].user.accountId == id then 1 else 0)
  }

  /** Per account: with distinct accountIds on the roster, an account the pass
      gives anything to ends with at most two issues, its earlier load included. */
  lemma {:induction false} AccountWithinCap(unassigned: seq<IssueDto>, users: seq<User>, allIssues: seq<IssueDto>,
                                            put: (nat, string) -> PutOutcome, id: string)
    requires |AvailableUsers(users, LoadMap(allIssues))| > 0 && DistinctAccounts(users)
    ensures var caps := AvailableUsers(users, LoadMap(allIssues));
      var s := Run(Init(caps), unassigned, put);
      Given(caps, s.picks, id) > 0 ==> LoadOf(allIssues, id) + Given(caps, s.picks, id) <= MaxTasksPerUser
  {
    var caps := AvailableUsers(users, LoadMap(allIssues));
    var s := Run(Init(caps), unassigned, put);
    AvailableDistinct(users, LoadMap(allIssues));
    if i :| 0 <= i < |caps| && caps[i].user.accountId == id {
      GivenByEntry(caps, s.picks, id, i);
      AssignmentsWithinCap(unassigned, users, allIssues, put, i);
    } else {
      GivenNone(caps, s.picks, id);
    }
  }

  /** The capacity list of a roster with distinct accountIds has distinct accountIds. */
  lemma {:induction false} AvailableDistinct(users: seq<User>, counts: map<string, nat>)
    requires DistinctAccounts(users)
    ensures DistinctAccounts(UsersOf(AvailableUsers(users, counts)))
  {
    if users != [] {
      var u := users[0];
      var rest := AvailableUsers(users[1..], counts);
      assert DistinctAccounts(users[1..]) by {
        assert forall a :: 0 <= a < |users[1..]| ==> users[1..][a] == users[a + 1];
      }
      AvailableDistinct(users[1..], counts);
      if u.active && Remaining(counts, u) > 0 {
        forall k | 0 <= k < |rest|
          ensures rest[k].user.accountId != u.accountId
        {
          LaterAccount(users, counts, k);
        }
        ConsDistinct(UserCap(u, Remaining(counts, u)), rest);
      }
    }
  }

  /** An entry built from the rest of the roster has another accountId than its head. */
  lemma {:induction false} LaterAccount(users: seq<User>, counts: map<string, nat>, k: nat)
    requires DistinctAccounts(users) && users != [] && k < |AvailableUsers(users[1..], counts)|
    ensures AvailableUsers(users[1..], counts)[k].user.accountId != users[0].accountId
  {
    var v := AvailableUsers(users[1..], counts)[k].user;
    assert UsersOf(AvailableUsers(users[1..], counts))[k] == v;
    AvailableMembership(users[1..], counts, v);
    var j :| 0 <= j < |users[1..]| && users[1..][j] == v;
    assert users[j + 1] == v;
  }

  lemma {:induction false} ConsDistinct(c: UserCap, rest: seq<UserCap>)
    requires DistinctAccounts(UsersOf(rest))
    requires forall k :: 0 <= k < |rest| ==> rest[k].user.accountId != c.user.accountId
    ensures DistinctAccounts(UsersOf([c] + rest))
  {
    var all := [c] + rest;
    forall a, b | 0 <= a < b < |all|
      ensures UsersOf(all)[a].accountId != UsersOf(all)[b].accountId
    {
      assert all[b] == rest[b - 1];
      if a > 0 {
        assert all[a] == rest[a - 1];
        assert UsersOf(rest)[a - 1] == rest[a - 1].user && UsersOf(rest)[b - 1] == rest[b - 1].user;
      }
    }
  }

  /** With distinct accountIds, what an account was given is what its entry was given. */
  lemma {:induction false} GivenByEntry(caps: seq<UserCap>, ps: seq<Option<nat>>, id: string, i: nat)
    requires DistinctAccounts(UsersOf(caps)) && i < |caps| && caps[i].user.accountId == id
    ensures Given(caps, ps, id) == Picks(ps, i)
    decreases |ps|
  {
    if ps != [] {
      GivenByEntry(caps, ps[..|ps| - 1], id, i);
    }
  }

  /** An account without an entry is given nothing. */
  lemma {:induction false} GivenNone(caps: seq<UserCap>, ps: seq<Option<nat>>, id: string)
    requires forall j :: 0 <= j < |caps| ==> caps[j].user.accountId != id
    ensures Given(caps, ps, id) == 0
    decreases |ps|
  {
    if ps != [] {
      GivenNone(caps, ps[..|ps| - 1], id);
    }
  }

  /** Remaining capacity only goes down. */
  lemma {:induction false} RemainingNeverGrows(s0: PassState, issues: seq<IssueDto>, put: (nat, string) -> PutOutcome)
    requires WellFormed(s0)
    ensures forall i :: 0 <= i < |s0.caps| ==> Run(s0, issues, put).caps[i].remaining <= s0.caps[i].remaining
    decreases |issues|
  {
    if issues != [] {
      RemainingNeverGrows(s0, issues[..|issues| - 1], put);
      StepCapacity(Run(s0, issues[..|issues| - 1], put), issues[|issues| - 1], put);
    }
  }

  /** The results of issues met with every entry exhausted. */
  function ExhaustedFailures(issues: seq<IssueDto>): (rs: seq<AssignResult>)
    ensures |rs| == |issues|
    ensures forall k :: 0 <= k < |issues| ==> rs[k] == Failed(issues[k].key, Some(ExhaustedError))
  {
    seq(|issues|, k requires 0 <= k < |issues| => Failed(issues[k].key, Some(ExhaustedError)))
  }

  /** From an exhausted list every further issue gets the capacity-exhausted failure. */
  lemma {:induction false} ExhaustedStaysExhausted(s0: PassState, issues: seq<IssueDto>, put: (nat, string) -> PutOutcome)
    requires WellFormed(s0) && AllExhausted(s0.caps)
    ensures Run(s0, issues, put).caps == s0.caps
    ensures Run(s0, issues, put).results == s0.results + ExhaustedFailures(issues)
    decreases |issues|
  {
    if issues != [] {
      var init, last := issues[..|issues| - 1], issues[|issues| - 1];
      var mid := Run(s0, init, put);
      assert mid.caps == s0.caps && mid.results == s0.results + ExhaustedFailures(init) by {
        ExhaustedStaysExhausted(s0, init, put);
      }
      assert NextAvailable(mid.caps, mid.cursor).0.None? by {
        NextAvailableMeaning(mid.caps, mid.cursor);
      }
      var f := Failed(last.key, Some(ExhaustedError));
      var s := Run(s0, issues, put);
      assert s.caps == s0.caps && s.results == mid.results + [f] by {
        assert s == Step(mid, last, put);
      }
      assert s.results == s0.results + ExhaustedFailures(issues) by {
        FailuresSnoc(issues);
        assert s.results == s0.results + (ExhaustedFailures(init) + [f]);
      }
    }
  }

  lemma {:induction false} FailuresSnoc(issues: seq<IssueDto>)
    requires issues != []
    ensures ExhaustedFailures(issues) == ExhaustedFailures(issues[..|issues| - 1])
                                         + [Failed(issues[|issues| - 1].key, Some(ExhaustedError))]
  {
    var init := issues[..|issues| - 1];
    assert forall k :: 0 <= k < |init| ==> init[k] == issues[k];
  }

  lemma {:induction false} RunAfterExhaustion(s0: PassState, xs: seq<IssueDto>, ys: seq<IssueDto>, put: (nat, string) -> PutOutcome)
    requires WellFormed(s0) && AllExhausted(Run(s0, xs, put).caps)
    ensures Run(s0, xs + ys, put).results == Run(s0, xs, put).results + ExhaustedFailures(ys)
  {
    RunCompose(s0, xs, ys, put);
    ExhaustedStaysExhausted(Run(s0, xs, put), ys, put);
  }

  /** Once selection finds nobody, it finds nobody for the rest of the pass: every
      later issue is recorded as a capacity-exhausted failure. */
  lemma {:induction false} ExhaustionIsFinal(caps: seq<UserCap>, issues: seq<IssueDto>, put: (nat, string) -> PutOutcome, k: nat)
    requires |caps| > 0 && k <= |issues|
    requires var s := Run(Init(caps), issues[..k], put); NextAvailable(s.caps, s.cursor).0.None?
    ensures forall j :: k <= j < |issues| ==>
      Run(Init(caps), issues, put).results[j] == Failed(issues[j].key, Some(ExhaustedError))
  {
    var xs, ys := issues[..k], issues[k..];
    var mid := Run(Init(caps), xs, put);
    assert AllExhausted(mid.caps) by {
      NextAvailableMeaning(mid.caps, mid.cursor);
    }
    var rs := Run(Init(caps), issues, put).results;
    assert rs == mid.results + ExhaustedFailures(ys) by {
      RunAfterExhaustion(Init(caps), xs, ys, put);
      SplitAt(issues, k);
    }
    SuffixFailures(rs, mid.results, issues, k);
  }

  lemma {:induction false} SplitAt(issues: seq<IssueDto>, k: nat)
    requires k <= |issues|
    ensures issues[..k] + issues[k..] == issues
  {
  }

  lemma {:induction false} SuffixFailures(rs: seq<AssignResult>, prefix: seq<AssignResult>, issues: seq<IssueDto>, k: nat)
    requires k <= |issues| && |prefix| == k
    requires rs == prefix + ExhaustedFailures(issues[k..])
    ensures forall j :: k <= j < |issues| ==> rs[j] == Failed(issues[j].key, Some(ExhaustedError))
  {
    forall j | k <= j < |issues|
      ensures rs[j] == Failed(issues[j].key, Some(ExhaustedError))
    {
      SuffixEntry(rs, prefix, issues, k, j);
    }
  }

  lemma {:induction false} SuffixEntry(rs: seq<AssignResult>, prefix: seq<AssignResult>, issues: seq<IssueDto>, k: nat, j: nat)
    requires k <= j < |issues| && |prefix| == k
    requires rs == prefix + ExhaustedFailures(issues[k..])
    ensures rs[j] == Failed(issues[j].key, Some(ExhaustedError))
  {
    assert issues[k..][j - k] == issues[j];
  }

  lemma {:induction false} TotalRemainingDecrement(caps: seq<UserCap>, i: nat)
    requires i < |caps| && caps[i].remaining > 0
    ensures TotalRemaining(caps[i := caps[i].(remaining := caps[i].remaining - 1)]) + 1 == TotalRemaining(caps)
  {
    if i > 0 {
      var c := caps[i := caps[i].(remaining := caps[i].remaining - 1)];
      assert c[1..] == caps[1..][i - 1 := caps[i].(remaining := caps[i].remaining - 1)];
      TotalRemainingDecrement(caps[1..], i - 1);
    }
  }

  /** Every success used up one unit of capacity: successes plus what is left is
      the capacity the pass started with. */
  lemma {:induction false} SuccessesUseCapacity(s0: PassState, issues: seq<IssueDto>, put: (nat, string) -> PutOutcome)
    requires WellFormed(s0)
    ensures var s := Run(s0, issues, put);
      SuccessCount(s.results) + TotalRemaining(s.caps) == SuccessCount(s0.results) + TotalRemaining(s0.caps)
    decreases |issues|
  {
    if issues != [] {
      var init := issues[..|issues| - 1];
      SuccessesUseCapacity(s0, init, put);
      var mid := Run(s0, init, put);
      var s := Run(s0, issues, put);
      StepCapacity(mid, issues[|issues| - 1], put);
      assert s.results == mid.results + [s.results[|mid.results|]];
      SuccessCountAppend(mid.results, s.results[|mid.results|]);
      var p := s.picks[|mid.picks|];
      if p.Some? {
        TotalRemainingDecrement(mid.caps, p.value);
      }
    }
  }

  /** An empty unassigned list is a success with a message and no results, and
      neither the roster nor the project's issues are looked at. */
  lemma {:induction false} NothingToAssign(users: seq<User>, allIssues: seq<IssueDto>,
                        users': seq<User>, allIssues': seq<IssueDto>, put: (nat, string) -> PutOutcome)
    ensures var r := AutoAssignPass([], users, allIssues, put);
      && r.success && r.message == Some(NoUnassignedMessage) && r.results.None?
      && r == AutoAssignPass([], users', allIssues', put)
  {
  }

  /** The pass fails as a whole exactly when there is work and no active roster
      member is below the cap; then nothing is attempted. */
  lemma {:induction false} NoCapacityFailsPass(unassigned: seq<IssueDto>, users: seq<User>, allIssues: seq<IssueDto>,
                            put: (nat, string) -> PutOutcome)
    ensures var r := AutoAssignPass(unassigned, users, allIssues, put);
      && (!r.success <==>
            (|unassigned| > 0 && forall u :: u in users && u.active ==> LoadOf(allIssues, u.accountId) >= MaxTasksPerUser))
      && (!r.success ==> r.error == Some(NoCapacityError) && r.results.None?)
  {
    var caps := AvailableUsers(users, LoadMap(allIssues));
    if |unassigned| > 0 {
      if |caps| == 0 {
        forall u | u in users && u.active
          ensures LoadOf(allIssues, u.accountId) >= MaxTasksPerUser
        {
          AvailableMembership(users, LoadMap(allIssues), u);
          LoadMapCounts(allIssues, u.accountId);
        }
      } else {
        var u := caps[0].user;
        assert u in UsersOf(caps);
        AvailableMembership(users, LoadMap(allIssues), u);
        LoadMapCounts(allIssues, u.accountId);
      }
    }
  }

  /** The loop's final state in a pass that gets past its two early returns. */
  function PassRun(unassigned: seq<IssueDto>, users: seq<User>, allIssues: seq<IssueDto>,
                   put: (nat, string) -> PutOutcome): PassState
    requires |AvailableUsers(users, LoadMap(allIssues))| > 0
  {
    Run(Init(AvailableUsers(users, LoadMap(allIssues))), unassigned, put)
  }

  /** When there is work and capacity, the pass reports success even if every PUT
      failed, returns the loop's results, and summarises them as the number of
      successes against the number of unassigned issues. */
  lemma {:induction false} PassReportsLoop(unassigned: seq<IssueDto>, users: seq<User>, allIssues: seq<IssueDto>,
                                           put: (nat, string) -> PutOutcome)
    requires |unassigned| > 0 && |AvailableUsers(users, LoadMap(allIssues))| > 0
    ensures var r := AutoAssignPass(unassigned, users, allIssues, put);
      var rs := PassRun(unassigned, users, allIssues, put).results;
      && r.success && r.error.None? && r.results == Some(rs)
      && r.summary == Some(Summary(SuccessCount(rs), |unassigned|))
  {
  }

  /** Exactly one result per unassigned issue, in order and with that issue's key. */
  lemma {:induction false} OneResultPerIssue(unassigned: seq<IssueDto>, users: seq<User>, allIssues: seq<IssueDto>,
                                             put: (nat, string) -> PutOutcome)
    requires |AvailableUsers(users, LoadMap(allIssues))| > 0
    ensures var rs := PassRun(unassigned, users, allIssues, put).results;
      |rs| == |unassigned| && forall k :: 0 <= k < |rs| ==> rs[k].issueKey == unassigned[k].key
  {
    RunResults(Init(AvailableUsers(users, LoadMap(allIssues))), unassigned, put);
  }

  /** Each success names a user of the capacity list, and there are no more
      successes than the capacity the pass started with. */
  lemma {:induction false} SuccessesStayWithinCapacity(unassigned: seq<IssueDto>, users: seq<User>, allIssues: seq<IssueDto>,
                                                       put: (nat, string) -> PutOutcome)
    requires |AvailableUsers(users, LoadMap(allIssues))| > 0
    ensures var caps := AvailableUsers(users, LoadMap(allIssues));
      var rs := PassRun(unassigned, users, allIssues, put).results;
      && SuccessCount(rs) <= TotalRemaining(caps)
      && forall k :: 0 <= k < |rs| && rs[k].success ==>
           exists i :: 0 <= i < |caps| && rs[k].assignedTo == Some(caps[i].user.displayName)
  {
    var caps := AvailableUsers(users, LoadMap(allIssues));
    var s := Run(Init(caps), unassigned, put);
    RunConsistent(Init(caps), unassigned, put);
    SuccessesUseCapacity(Init(caps), unassigned, put);
    forall k | 0 <= k < |s.results| && s.results[k].success
      ensures exists i :: 0 <= i < |caps| && s.results[k].assignedTo == Some(caps[i].user.displayName)
    {
      var i := s.picks[k].value;
      assert UsersOf(s.caps)[i] == UsersOf(caps)[i];
      assert s.results[k].assignedTo == Some(caps[i].user.displayName);
    }
  }
}
