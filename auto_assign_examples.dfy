/** Small passes of the round-robin allocator, spelled out result by result. */
module AutoAssignExamples {
  import opened Jira
  import opened AutoAssign
  import opened AutoAssignProps
  import opened AutoAssignRotation

  /** Issues without an assignee add nothing to the counter map. */
  lemma {:induction false} LoadMapOfOpen(issues: seq<IssueDto>)
    requires forall k :: 0 <= k < |issues| ==> issues[k].fields.assignee.None?
    ensures LoadMap(issues) == map[]
  {
    if issues != [] {
      LoadMapOfOpen(issues[..|issues| - 1]);
    }
  }

  /** Three idle developers and six open issues whose PUTs all succeed: the cursor
      visits them in the order a, b, c, a, b, c and every issue is assigned. */
  lemma {:induction false} RoundRobinOrder(a: User, b: User, c: User, issues: seq<IssueDto>, put: (nat, string) -> PutOutcome)
    requires a.active && b.active && c.active
    requires |issues| == 6 && forall k :: 0 <= k < 6 ==> issues[k].fields.assignee.None?
    requires AlwaysSucceeds(put)
    ensures AutoAssignPass(issues, [a, b, c], issues, put)
      == AutoAssignResponse(true, None, None,
           Some([Assigned(issues[0].key, a.displayName), Assigned(issues[1].key, b.displayName),
                 Assigned(issues[2].key, c.displayName), Assigned(issues[3].key, a.displayName),
                 Assigned(issues[4].key, b.displayName), Assigned(issues[5].key, c.displayName)]),
           Some(Summary(6, 6)))
  {
    var users := [a, b, c];
    var r := AutoAssignPass(issues, users, issues, put);
    assert r.success && r.results.Some? && |r.results.value| == 6
      && (forall k :: 0 <= k < 6 ==> r.results.value[k] == Assigned(issues[k].key, users[k % 3].displayName))
      && r.summary == Some(Summary(6, 6)) by {
      LoadMapOfOpen(issues);
      forall j | 0 <= j < |users|
        ensures LoadOf(issues, users[j].accountId) == 0
      {
        LoadMapCounts(issues, users[j].accountId);
      }
      RoundRobinPass(issues, users, issues, put);
    }
    CyclicNames(r.results.value, issues, users);
  }

  /** Six results naming three developers cyclically, written out one by one. */
  lemma {:induction false} CyclicNames(rs: seq<AssignResult>, issues: seq<IssueDto>, users: seq<User>)
    requires |issues| == 6 && |users| == 3
    requires |rs| == 6 && forall k :: 0 <= k < 6 ==> rs[k] == Assigned(issues[k].key, users[k % 3].displayName)
    ensures rs == [Assigned(issues[0].key, users[0].displayName), Assigned(issues[1].key, users[1].displayName),
                   Assigned(issues[2].key, users[2].displayName), Assigned(issues[3].key, users[0].displayName),
                   Assigned(issues[4].key, users[1].displayName), Assigned(issues[5].key, users[2].displayName)]
  {
    assert 3 % 3 == 0 && 4 % 3 == 1 && 5 % 3 == 2;
  }

  /** One idle developer and three open issues whose PUTs all succeed: the first
      two are assigned, the third finds every allowance used up; the pass still
      succeeds with two of three. */
  lemma {:induction false} CapacityRunsOut(u: User, issues: seq<IssueDto>, put: (nat, string) -> PutOutcome)
    requires u.active
    requires |issues| == 3 && forall k :: 0 <= k < 3 ==> issues[k].fields.assignee.None?
    requires AlwaysSucceeds(put)
    ensures AutoAssignPass(issues, [u], issues, put)
      == AutoAssignResponse(true, None, None,
           Some([Assigned(issues[0].key, u.displayName), Assigned(issues[1].key, u.displayName),
                 Failed(issues[2].key, Some(ExhaustedError))]),
           Some(Summary(2, 3)))
  {
    assert AvailableUsers([u], LoadMap(issues)) == [UserCap(u, 2)] by {
      LoadMapOfOpen(issues);
    }
    var r1 := Assigned(issues[0].key, u.displayName);
    var r2 := Assigned(issues[1].key, u.displayName);
    var r3 := Failed(issues[2].key, Some(ExhaustedError));
    CapacityRun(u, issues, put);
    CountOfThree(r1, r2, r3);
    PassOfRun(issues, [u], issues, put, [UserCap(u, 2)], [r1, r2, r3]);
  }

  /** The success count of a short result list, entry by entry. */
  lemma {:induction false} CountOfTwo(r1: AssignResult, r2: AssignResult)
    ensures SuccessCount([r1, r2]) == (if r1.success then 1 else 0) + (if r2.success then 1 else 0)
  {
    SuccessCountAppend([], r1);
    assert [] + [r1] == [r1];
    SuccessCountAppend([r1], r2);
    assert [r1] + [r2] == [r1, r2];
  }

  lemma {:induction false} CountOfThree(r1: AssignResult, r2: AssignResult, r3: AssignResult)
    ensures SuccessCount([r1, r2, r3])
      == (if r1.success then 1 else 0) + (if r2.success then 1 else 0) + (if r3.success then 1 else 0)
  {
    CountOfTwo(r1, r2);
    SuccessCountAppend([r1, r2], r3);
    assert [r1, r2] + [r3] == [r1, r2, r3];
  }

  /** The response of a pass with work and capacity, given the loop's results. */
  lemma {:induction false} PassOfRun(unassigned: seq<IssueDto>, users: seq<User>, allIssues: seq<IssueDto>,
                                     put: (nat, string) -> PutOutcome, caps: seq<UserCap>, rs: seq<AssignResult>)
    requires |unassigned| > 0 && caps != []
    requires AvailableUsers(users, LoadMap(allIssues)) == caps
    requires Run(Init(caps), unassigned, put).results == rs
    ensures AutoAssignPass(unassigned, users, allIssues, put)
      == AutoAssignResponse(true, None, None, Some(rs), Some(Summary(SuccessCount(rs), |unassigned|)))
  {
  }

  /** The three iterations of that pass, state by state. */
  lemma {:induction false} CapacityRun(u: User, issues: seq<IssueDto>, put: (nat, string) -> PutOutcome)
    requires |issues| == 3 && AlwaysSucceeds(put)
    ensures Run(Init([UserCap(u, 2)]), issues, put)
      == PassState([UserCap(u, 0)], 0,
                   [Assigned(issues[0].key, u.displayName), Assigned(issues[1].key, u.displayName),
                    Failed(issues[2].key, Some(ExhaustedError))],
                   [Some(0), Some(0), None])
  {
    var r1 := Assigned(issues[0].key, u.displayName);
    var r2 := Assigned(issues[1].key, u.displayName);
    var s0 := Init([UserCap(u, 2)]);
    var s1 := PassState([UserCap(u, 1)], 0, [r1], [Some(0)]);
    var s2 := PassState([UserCap(u, 0)], 0, [r1, r2], [Some(0), Some(0)]);
    var s3 := PassState([UserCap(u, 0)], 0, s2.results + [Failed(issues[2].key, Some(ExhaustedError))], s2.picks + [None]);
    assert Step(s0, issues[0], put) == s1 by {
      assert Scan(s0.caps, 0, 0) == Some(0);
      assert put(0, u.accountId) == PutOk;
    }
    assert Step(s1, issues[1], put) == s2 by {
      assert Scan(s1.caps, 0, 0) == Some(0);
      assert put(1, u.accountId) == PutOk;
    }
    assert Step(s2, issues[2], put) == s3 by {
      assert Scan(s2.caps, 0, 0) == None;
    }
    RunFirst(s0, issues, put);
    RunNext(s0, issues, 1, put);
    RunNext(s0, issues, 2, put);
    assert issues[..3] == issues;
  }

  /** `Run` over a prefix one issue longer is one more `Step`. */
  lemma {:induction false} RunNext(s0: PassState, issues: seq<IssueDto>, n: nat, put: (nat, string) -> PutOutcome)
    requires WellFormed(s0) && n < |issues|
    ensures Run(s0, issues[..n + 1], put) == Step(Run(s0, issues[..n], put), issues[n], put)
  {
    assert issues[..n + 1][..n] == issues[..n];
  }

  lemma {:induction false} RunFirst(s0: PassState, issues: seq<IssueDto>, put: (nat, string) -> PutOutcome)
    requires WellFormed(s0) && 0 < |issues|
    ensures Run(s0, issues[..1], put) == Step(s0, issues[0], put)
  {
    RunNext(s0, issues, 0, put);
    assert issues[..0] == [];
  }

  /** A rejected PUT fails only its own issue and leaves the capacity untouched;
      the pass reports success with one of two assigned. */
  lemma {:induction false} RejectedPutStaysLocal(a: User, b: User, issues: seq<IssueDto>, put: (nat, string) -> PutOutcome, t: Thrown)
    requires a.active && b.active
    requires |issues| == 2 && forall k :: 0 <= k < 2 ==> issues[k].fields.assignee.None?
    requires put(0, a.accountId) == PutOk && put(1, b.accountId) == PutFailed(t)
    ensures Run(Init([UserCap(a, 2), UserCap(b, 2)]), issues, put).caps == [UserCap(a, 1), UserCap(b, 2)]
    ensures AutoAssignPass(issues, [a, b], issues, put)
      == AutoAssignResponse(true, None, None,
           Some([Assigned(issues[0].key, a.displayName), Failed(issues[1].key, Some(ErrorText(t)))]),
           Some(Summary(1, 2)))
  {
    var caps := [UserCap(a, 2), UserCap(b, 2)];
    assert AvailableUsers([a, b], LoadMap(issues)) == caps by {
      LoadMapOfOpen(issues);
    }
    var r1 := Assigned(issues[0].key, a.displayName);
    var r2 := Failed(issues[1].key, Some(ErrorText(t)));
    RejectedPutRun(a, b, issues, put, t);
    CountOfTwo(r1, r2);
    PassOfRun(issues, [a, b], issues, put, caps, [r1, r2]);
  }

  /** The two iterations of that pass, state by state. */
  lemma {:induction false} RejectedPutRun(a: User, b: User, issues: seq<IssueDto>, put: (nat, string) -> PutOutcome, t: Thrown)
    requires |issues| == 2
    requires put(0, a.accountId) == PutOk && put(1, b.accountId) == PutFailed(t)
    ensures Run(Init([UserCap(a, 2), UserCap(b, 2)]), issues, put)
      == PassState([UserCap(a, 1), UserCap(b, 2)], 0,
                   [Assigned(issues[0].key, a.displayName), Failed(issues[1].key, Some(ErrorText(t)))],
                   [Some(0), None])
  {
    var r1 := Assigned(issues[0].key, a.displayName);
    var r2 := Failed(issues[1].key, Some(ErrorText(t)));
    var s0 := Init([UserCap(a, 2), UserCap(b, 2)]);
    var s1 := PassState([UserCap(a, 1), UserCap(b, 2)], 1, [r1], [Some(0)]);
    assert Run(s0, issues[..1], put) == s1 by {
      assert Run(s0, issues[..1][..0], put) == s0 by {
        assert issues[..1][..0] == [];
      }
      assert NextAvailable(s0.caps, 0) == (Some(0), 1) by {
        assert Scan(s0.caps, 0, 0) == Some(0);
      }
    }
    assert NextAvailable(s1.caps, 1) == (Some(1), 0) by {
      assert Scan(s1.caps, 1, 0) == Some(1);
    }
    assert issues[..1] == issues[..|issues| - 1];
  }
}
