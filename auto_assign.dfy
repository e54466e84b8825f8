/** The capacity-capped round-robin auto-assignment pass: count each account's
    current load, list the active users that still have capacity under the cap
    of two issues, then walk the unassigned issues and give each one to the next
    user with capacity left, cycling through the list with a cursor that persists
    across issues. The remote assignee PUT is the parameter `put`, called with the
    issue's position in the pass and the chosen accountId. */
module AutoAssign {
  import opened Jira

  const NoCapacityError := "Нет доступных пользователей для назначения (все достигли лимита 2)"
  const ExhaustedError := "Нет доступных разработчиков (достигнут лимит назначений)"

  /** The text recorded for a rejected PUT: the error's message, or a fixed text. */
  function ErrorText(t: Thrown): string
  {
    match t
    case ErrorValue(m) => m
    case OtherValue => "Unknown error"
  }

  // ---------------------------------------------------------------------------
  // Load counting

  /** The account an issue counts toward; an assignee with an empty accountId
      counts toward nobody. */
  function CountedAccount(issue: IssueDto): Option<string>
  {
    match issue.fields.assignee
    case Some(a) => if a.accountId != "" then Some(a.accountId) else None
    case None => None
  }

  /** Reference definition of a load: how many issues count toward `accountId`. */
  function LoadOf(issues: seq<IssueDto>, accountId: string): nat
  {
    if issues == [] then 0
    else (if CountedAccount(issues[0]) == Some(accountId) then 1 else 0) + LoadOf(issues[1..], accountId)
  }

  /** A lookup in the counter map that defaults to zero. */
  function CountIn(counts: map<string, nat>, accountId: string): nat
  {
    if accountId in counts then counts[accountId] else 0
  }

  /** The counter map after the counting loop has visited `issues` in order. */
  function LoadMap(issues: seq<IssueDto>): map<string, nat>
  {
    if issues == [] then map[]
    else
      var m := LoadMap(issues[..|issues| - 1]);
      match CountedAccount(issues[|issues| - 1])
      case Some(id) => m[id := CountIn(m, id) + 1]
      case None => m
  }

  lemma {:induction false} LoadOfAppend(issues: seq<IssueDto>, x: IssueDto, accountId: string)
    ensures LoadOf(issues + [x], accountId)
         == LoadOf(issues, accountId) + (if CountedAccount(x) == Some(accountId) then 1 else 0)
  {
    if issues != [] {
      assert (issues + [x])[1..] == issues[1..] + [x];
      LoadOfAppend(issues[1..], x, accountId);
    }
  }

  /** The counter map holds exactly the loads: an account is a key iff it holds an issue. */
  lemma {:induction false} LoadMapCounts(issues: seq<IssueDto>, accountId: string)
    ensures CountIn(LoadMap(issues), accountId) == LoadOf(issues, accountId)
    ensures accountId in LoadMap(issues) <==> LoadOf(issues, accountId) > 0
    decreases |issues|
  {
    if issues != [] {
      var init, last := issues[..|issues| - 1], issues[|issues| - 1];
      assert issues == init + [last];
      LoadMapCounts(init, accountId);
      LoadOfAppend(init, last, accountId);
    }
  }

  /** Steps 1-4 of the counting loop: one pass over all project issues. */
  method CountAssigned(issues: seq<IssueDto>) returns (counts: map<string, nat>)
    ensures counts == LoadMap(issues)
    ensures forall id :: CountIn(counts, id) == LoadOf(issues, id)
    ensures forall id :: id in counts ==> id != "" && counts[id] > 0
  {
    counts := map[];
    for i := 0 to |issues|
      invariant counts == LoadMap(issues[..i])
    {
      assert issues[..i + 1][..i] == issues[..i];
      var assignee := issues[i].fields.assignee;
      if assignee.Some? && assignee.value.accountId != "" {
        var id := assignee.value.accountId;
        counts := counts[id := CountIn(counts, id) + 1];
      }
    }
    assert issues[..|issues|] == issues;
    forall id
      ensures CountIn(counts, id) == LoadOf(issues, id)
      ensures id in counts ==> id != "" && counts[id] > 0
    {
      LoadMapCounts(issues, id);
      if id == "" {
        EmptyAccountHasNoLoad(issues);
      }
    }
  }

  lemma {:induction false} EmptyAccountHasNoLoad(issues: seq<IssueDto>)
    ensures LoadOf(issues, "") == 0
  {
    if issues != [] {
      EmptyAccountHasNoLoad(issues[1..]);
    }
  }

  // ---------------------------------------------------------------------------
  // The capacity list

  /** A user together with how many more issues this pass may give them. */
  datatype UserCap = UserCap(user: User, remaining: nat)

  /** `Math.max(0, cap - count)` */
  function Remaining(counts: map<string, nat>, u: User): nat
  {
    if CountIn(counts, u.accountId) < MaxTasksPerUser then MaxTasksPerUser - CountIn(counts, u.accountId) else 0
  }

  /** The active users with capacity left, in roster order, each with its remaining capacity. */
  function AvailableUsers(users: seq<User>, counts: map<string, nat>): (caps: seq<UserCap>)
    ensures |caps| <= |users|
    ensures forall k :: 0 <= k < |caps| ==>
      && caps[k].user.active
      && 0 < caps[k].remaining <= MaxTasksPerUser
      && caps[k].remaining + CountIn(counts, caps[k].user.accountId) == MaxTasksPerUser
  {
    if users == [] then []
    else
      var u := users[0];
      var rest := AvailableUsers(users[1..], counts);
      if u.active && Remaining(counts, u) > 0 then [UserCap(u, Remaining(counts, u))] + rest else rest
  }

  function UsersOf(caps: seq<UserCap>): (us: seq<User>)
    ensures |us| == |caps| && forall k :: 0 <= k < |caps| ==> us[k] == caps[k].user
  {
    seq(|caps|, k requires 0 <= k < |caps| => caps[k].user)
  }

  /** `xs` can be obtained from `ys` by deleting elements. */
  predicate IsSubsequence<T(==)>(xs: seq<T>, ys: seq<T>)
    decreases |ys|
  {
    if xs == [] then true
    else if ys == [] then false
    else (xs[0] == ys[0] && IsSubsequence(xs[1..], ys[1..])) || IsSubsequence(xs, ys[1..])
  }

  /** A user is on the capacity list iff they are on the roster, active and below the cap. */
  lemma {:induction false} AvailableMembership(users: seq<User>, counts: map<string, nat>, u: User)
    ensures u in UsersOf(AvailableUsers(users, counts))
        <==> u in users && u.active && CountIn(counts, u.accountId) < MaxTasksPerUser
  {
    if users != [] {
      AvailableMembership(users[1..], counts, u);
      var rest := AvailableUsers(users[1..], counts);
      var v := users[0];
      if v.active && Remaining(counts, v) > 0 {
        assert UsersOf(AvailableUsers(users, counts)) == [v] + UsersOf(rest);
      }
      assert users == [v] + users[1..];
    }
  }

  /** The capacity list keeps the roster's order. */
  lemma {:induction false} AvailableKeepsOrder(users: seq<User>, counts: map<string, nat>)
    ensures IsSubsequence(UsersOf(AvailableUsers(users, counts)), users)
  {
    if users != [] {
      AvailableKeepsOrder(users[1..], counts);
      var rest := UsersOf(AvailableUsers(users[1..], counts));
      var v := users[0];
      if v.active && Remaining(counts, v) > 0 {
        var all := UsersOf(AvailableUsers(users, counts));
        assert all == [v] + rest;
        assert all[0] == users[0] && all[1..] == rest;
      } else if rest != [] {
        assert UsersOf(AvailableUsers(users, counts)) == rest;
      }
    }
  }

  // ---------------------------------------------------------------------------
  // The round-robin cursor

  /** The scan of `getNextAvailableIndex`: from `idx`, having made `attempts` steps. */
  function Scan(caps: seq<UserCap>, idx: nat, attempts: nat): (r: Option<nat>)
    requires idx < |caps|
    ensures r.Some? ==> r.value < |caps| && caps[r.value].remaining > 0
    decreases |caps| - attempts
  {
    if attempts >= |caps| then None
    else if caps[idx].remaining > 0 then Some(idx)
    else Scan(caps, (idx + 1) % |caps|, attempts + 1)
  }

  /** The entry `getNextAvailableIndex` picks, and the cursor it leaves behind. */
  function NextAvailable(caps: seq<UserCap>, cursor: nat): (Option<nat>, nat)
    requires |caps| == 0 || cursor < |caps|
  {
    if |caps| == 0 then (None, cursor)
    else
      match Scan(caps, cursor, 0)
      case Some(i) => (Some(i), (i + 1) % |caps|)
      case None => (None, cursor)
  }

  /** How many steps forward, cyclically, `to` lies from `from` among `n` slots. */
  function Ahead(from: nat, to: nat, n: nat): nat
    requires from < n && to < n
  {
    if from <= to then to - from else to + n - from
  }

  predicate AllExhausted(caps: seq<UserCap>)
  {
    forall j :: 0 <= j < |caps| ==> caps[j].remaining == 0
  }

  lemma {:induction false} ModStep(i: nat, n: nat)
    requires i < n
    ensures (i + 1) % n == if i + 1 == n then 0 else i + 1
  {
  }

  lemma {:induction false} ScanMeaning(caps: seq<UserCap>, start: nat, idx: nat, attempts: nat)
    requires start < |caps| && idx < |caps| && attempts <= |caps|
    requires attempts < |caps| ==> Ahead(start, idx, |caps|) == attempts
    requires forall j :: 0 <= j < |caps| && Ahead(start, j, |caps|) < attempts ==> caps[j].remaining == 0
    ensures Scan(caps, idx, attempts).None? ==> AllExhausted(caps)
    ensures Scan(caps, idx, attempts).Some? ==>
      forall j :: 0 <= j < |caps| && caps[j].remaining > 0 ==>
        Ahead(start, Scan(caps, idx, attempts).value, |caps|) <= Ahead(start, j, |caps|)
    decreases |caps| - attempts
  {
    var n := |caps|;
    if attempts < n && caps[idx].remaining == 0 {
      ModStep(idx, n);
      ScanMeaning(caps, start, (idx + 1) % n, attempts + 1);
    }
  }

  /** `getNextAvailableIndex` returns the first entry with capacity left, scanning
      cyclically from the cursor, and moves the cursor just past it; it returns
      nothing, and leaves the cursor alone, only when every entry is exhausted. */
  lemma {:induction false} NextAvailableMeaning(caps: seq<UserCap>, cursor: nat)
    requires cursor < |caps|
    ensures NextAvailable(caps, cursor).0.None? <==> AllExhausted(caps)
    ensures NextAvailable(caps, cursor).0.None? ==> NextAvailable(caps, cursor).1 == cursor
    ensures NextAvailable(caps, cursor).0.Some? ==>
      var i := NextAvailable(caps, cursor).0.value;
      && i < |caps| && caps[i].remaining > 0
      && NextAvailable(caps, cursor).1 == (i + 1) % |caps|
      && forall j :: 0 <= j < |caps| && caps[j].remaining > 0 ==> Ahead(cursor, i, |caps|) <= Ahead(cursor, j, |caps|)
  {
    ScanMeaning(caps, cursor, cursor, 0);
  }

  /** `getNextAvailableIndex` over the live capacity array. */
  method NextAvailableIndex(caps: array<UserCap>, userIndex: nat) returns (idx: Option<nat>, nextIndex: nat)
    requires caps.Length == 0 || userIndex < caps.Length
    ensures (idx, nextIndex) == NextAvailable(caps[..], userIndex)
  {
    if caps.Length == 0 {
      return None, userIndex;
    }
    var attempts := 0;
    var i: nat := userIndex;
    while attempts < caps.Length
      invariant attempts <= caps.Length && i < caps.Length
      invariant Scan(caps[..], i, attempts) == Scan(caps[..], userIndex, 0)
      decreases caps.Length - attempts
    {
      if caps[i].remaining > 0 {
        return Some(i), (i + 1) % caps.Length;
      }
      i := (i + 1) % caps.Length;
      attempts := attempts + 1;
    }
    return None, userIndex;
  }

  // ---------------------------------------------------------------------------
  // The per-issue loop

  /** What the loop carries from one issue to the next: the capacity list, the
      cursor, the results so far and, per result, the entry that received it. */
  datatype PassState = PassState(
    caps: seq<UserCap>,
    cursor: nat,
    results: seq<AssignResult>,
    picks: seq<Option<nat>>)

  predicate WellFormed(s: PassState)
  {
    |s.caps| > 0 && s.cursor < |s.caps|
  }

  function Init(caps: seq<UserCap>): PassState
  {
    PassState(caps, 0, [], [])
  }

  /** One iteration: select, PUT, and on success consume one unit of capacity.
      The issue's position in the pass is the number of results so far. */
  function Step(s: PassState, issue: IssueDto, put: (nat, string) -> PutOutcome): (s': PassState)
    requires WellFormed(s)
    ensures WellFormed(s') && |s'.caps| == |s.caps| && UsersOf(s'.caps) == UsersOf(s.caps)
    ensures s'.cursor == NextAvailable(s.caps, s.cursor).1
    ensures |s'.results| == |s.results| + 1 && s'.results[..|s.results|] == s.results
    ensures |s'.picks| == |s.picks| + 1 && s'.picks[..|s.picks|] == s.picks
    ensures s'.results[|s.results|].issueKey == issue.key
  {
    var (idx, next) := NextAvailable(s.caps, s.cursor);
    match idx
    case None =>
      PassState(s.caps, next, s.results + [Failed(issue.key, Some(ExhaustedError))], s.picks + [None])
    case Some(i) =>
      var target := s.caps[i];
      match put(|s.results|, target.user.accountId)
      case PutOk =>
        var caps' := s.caps[i := target.(remaining := target.remaining - 1)];
        assert UsersOf(caps') == UsersOf(s.caps);
        PassState(caps', next, s.results + [Assigned(issue.key, target.user.displayName)], s.picks + [Some(i)])
      case PutFailed(t) =>
        PassState(s.caps, next, s.results + [Failed(issue.key, Some(ErrorText(t)))], s.picks + [None])
  }

  /** The loop over `issues`, in order. */
  function Run(s0: PassState, issues: seq<IssueDto>, put: (nat, string) -> PutOutcome): (s: PassState)
    requires WellFormed(s0)
    ensures WellFormed(s) && |s.caps| == |s0.caps| && UsersOf(s.caps) == UsersOf(s0.caps)
    ensures |s.results| == |s0.results| + |issues| && |s.picks| == |s0.picks| + |issues|
    decreases |issues|
  {
    if issues == [] then s0
    else Step(Run(s0, issues[..|issues| - 1], put), issues[|issues| - 1], put)
  }

  /** The whole pass as the caller sees it. */
  function AutoAssignPass(
    unassigned: seq<IssueDto>, users: seq<User>, allIssues: seq<IssueDto>,
    put: (nat, string) -> PutOutcome): AutoAssignResponse
  {
    if |unassigned| == 0 then
      AutoAssignResponse(true, Some(NoUnassignedMessage), None, None, None)
    else
      var caps := AvailableUsers(users, LoadMap(allIssues));
      if |caps| == 0 then
        AutoAssignResponse(false, None, Some(NoCapacityError), None, None)
      else
        var s := Run(Init(caps), unassigned, put);
        AutoAssignResponse(true, None, None, Some(s.results), Some(Summary(SuccessCount(s.results), |unassigned|)))
  }

  /** One iteration of the loop on the capacity array: the new cursor, the
      result and the pick are those of `Step`. */
  method AssignOne(caps: array<UserCap>, userIndex: nat, results: seq<AssignResult>,
                   ghost picks: seq<Option<nat>>, issue: IssueDto, put: (nat, string) -> PutOutcome)
    returns (next: nat, r: AssignResult, ghost pick: Option<nat>)
    requires WellFormed(PassState(caps[..], userIndex, results, picks))
    modifies caps
    ensures PassState(caps[..], next, results + [r], picks + [pick])
      == Step(PassState(old(caps[..]), userIndex, results, picks), issue, put)
  {
    ghost var before := caps[..];
    var idx;
    idx, next := NextAvailableIndex(caps, userIndex);
    if idx.None? {
      r, pick := Failed(issue.key, Some(ExhaustedError)), None;
    } else {
      var target := caps[idx.value];
      match put(|results|, target.user.accountId)
      case PutOk =>
        caps[idx.value] := target.(remaining := target.remaining - 1);
        assert caps[..] == before[idx.value := target.(remaining := target.remaining - 1)];
        r, pick := Assigned(issue.key, target.user.displayName), Some(idx.value);
      case PutFailed(t) =>
        r, pick := Failed(issue.key, Some(ErrorText(t))), None;
    }
  }

  /** `autoAssignUnassigned`, given the three fetched snapshots: the unassigned
      issues, the assignable users and all project issues. */
  method AutoAssignUnassigned(
    unassigned: seq<IssueDto>, users: seq<User>, allIssues: seq<IssueDto>,
    put: (nat, string) -> PutOutcome) returns (resp: AutoAssignResponse)
    ensures resp == AutoAssignPass(unassigned, users, allIssues, put)
  {
    if |unassigned| == 0 {
      return AutoAssignResponse(true, Some(NoUnassignedMessage), None, None, None);
    }
    var counts := CountAssigned(allIssues);
    var available := AvailableUsers(users, counts);
    if |available| == 0 {
      return AutoAssignResponse(false, None, Some(NoCapacityError), None, None);
    }
    var caps := new UserCap[|available|](k requires 0 <= k < |available| => available[k]);
    var results: seq<AssignResult> := [];
    ghost var picks: seq<Option<nat>> := [];
    var userIndex: nat := 0;
    for i := 0 to |unassigned|
      invariant caps.Length == |available| && userIndex < caps.Length
      invariant PassState(caps[..], userIndex, results, picks) == Run(Init(available), unassigned[..i], put)
    {
      ghost var prev := PassState(caps[..], userIndex, results, picks);
      assert Run(Init(available), unassigned[..i + 1], put) == Step(prev, unassigned[i], put) by {
        assert unassigned[..i + 1][..i] == unassigned[..i];
      }
      var r; ghost var pick;
      userIndex, r, pick := AssignOne(caps, userIndex, results, picks, unassigned[i], put);
      results := results + [r];
      picks := picks + [pick];
    }
    assert unassigned[..|unassigned|] == unassigned;
    var successCount := SuccessCount(results);
    resp := AutoAssignResponse(true, None, None, Some(results), Some(Summary(successCount, |unassigned|)));
  }
}
