/** The rotation the cursor produces: on a team where nobody holds an issue yet
    and every PUT succeeds, issue k of the pass goes to the developer at position
    k mod n of the capacity list, until every developer has taken two. */
module AutoAssignRotation {
  import opened Jira
  import opened AutoAssign
  import opened AutoAssignProps

  // ---------------------------------------------------------------------------
  // Euclidean division by a positive divisor

  lemma {:induction false} MulGap(n: nat, a: nat, b: nat)
    requires a < b
    ensures n * a + n <= n * b
    decreases b - a
  {
    assert n * (a + 1) == n * a + n;
    if a + 1 < b {
      MulGap(n, a + 1, b);
    }
  }

  /** Quotient and remainder are the only pair with `x == n * q + r` and `r < n`. */
  lemma {:induction false} DivModUnique(x: nat, n: nat, q: nat, r: nat)
    requires n > 0 && r < n && x == n * q + r
    ensures x / n == q && x % n == r
  {
    var q', r' := x / n, x % n;
    assert x == n * q' + r';
    if q' < q {
      MulGap(n, q', q);
    } else if q' > q {
      MulGap(n, q, q');
    }
  }

  /** Counting one further: the remainder steps on and wraps to zero, carrying into the quotient. */
  lemma {:induction false} DivModNext(k: nat, n: nat)
    requires n > 0
    ensures k % n + 1 < n ==> (k + 1) / n == k / n && (k + 1) % n == k % n + 1
    ensures k % n + 1 == n ==> (k + 1) / n == k / n + 1 && (k + 1) % n == 0
  {
    var q, r := k / n, k % n;
    assert k == n * q + r;
    if r + 1 < n {
      DivModUnique(k + 1, n, q, r + 1);
    } else {
      assert n * (q + 1) == n * q + n;
      DivModUnique(k + 1, n, q + 1, 0);
    }
  }

  // ---------------------------------------------------------------------------
  // The state of the loop after k issues of a fresh team

  /** Issues entry `j` has taken after `rounds` full rounds and `c` steps of the current one. */
  function Taken(rounds: nat, c: nat, j: nat): nat
  {
    rounds + (if j < c then 1 else 0)
  }

  /** The capacity list after `rounds` full rounds and `c` steps of the next. */
  function RotatedCaps(caps0: seq<UserCap>, rounds: nat, c: nat): (caps: seq<UserCap>)
    ensures |caps| == |caps0|
  {
    seq(|caps0|, j requires 0 <= j < |caps0| =>
      UserCap(caps0[j].user, if Taken(rounds, c, j) >= MaxTasksPerUser then 0 else MaxTasksPerUser - Taken(rounds, c, j)))
  }

  /** Every entry starts with the full allowance of two. */
  predicate Fresh(caps0: seq<UserCap>)
  {
    |caps0| > 0 && forall j :: 0 <= j < |caps0| ==> caps0[j].remaining == MaxTasksPerUser
  }

  ghost predicate AlwaysSucceeds(put: (nat, string) -> PutOutcome)
  {
    forall pos, accountId :: put(pos, accountId) == PutOk
  }

  /** What the loop holds after the first `k` issues of a fresh team. */
  ghost predicate Rotated(caps0: seq<UserCap>, issues: seq<IssueDto>, s: PassState, k: nat)
    requires |caps0| > 0
  {
    var n := |caps0|;
    && s.cursor == k % n
    && s.caps == RotatedCaps(caps0, k / n, k % n)
    && |s.results| == k && k <= |issues|
    && forall i :: 0 <= i < k ==> s.results[i] == Assigned(issues[i].key, caps0[i % n].user.displayName)
  }

  /** Fewer than two full rounds have been completed before the last issue of the two rounds. */
  lemma {:induction false} RoundsBelowCap(k: nat, n: nat)
    requires n > 0 && k < MaxTasksPerUser * n
    ensures k / n < MaxTasksPerUser
  {
    var q := k / n;
    assert k == n * q + k % n;
    if q >= 2 {
      MulGap(n, 1, q);
    }
  }

  /** Consuming one unit at the cursor is the same as moving one step through the rotation. */
  lemma {:induction false} RotatedCapsStep(caps0: seq<UserCap>, q: nat, c: nat)
    requires c < |caps0| && q < MaxTasksPerUser
    ensures var caps := RotatedCaps(caps0, q, c);
      && caps[c].remaining == MaxTasksPerUser - q
      && caps[c := caps[c].(remaining := caps[c].remaining - 1)]
         == if c + 1 < |caps0| then RotatedCaps(caps0, q, c + 1) else RotatedCaps(caps0, q + 1, 0)
  {
  }

  /** One iteration on a fresh team keeps the rotation going. */
  lemma {:induction false} RotationStep(caps0: seq<UserCap>, issues: seq<IssueDto>, s: PassState,
                                        put: (nat, string) -> PutOutcome, k: nat)
    requires Fresh(caps0) && AlwaysSucceeds(put) && WellFormed(s)
    requires k < |issues| && k < MaxTasksPerUser * |caps0|
    requires Rotated(caps0, issues, s, k)
    ensures Rotated(caps0, issues, Step(s, issues[k], put), k + 1)
  {
    var n := |caps0|;
    var q, c := k / n, k % n;
    RoundsBelowCap(k, n);
    RotatedCapsStep(caps0, q, c);
    assert Scan(s.caps, c, 0) == Some(c);
    ModStep(c, n);
    DivModNext(k, n);
    var s' := Step(s, issues[k], put);
    assert s'.caps == s.caps[c := s.caps[c].(remaining := s.caps[c].remaining - 1)];
    forall i | 0 <= i < k + 1
      ensures s'.results[i] == Assigned(issues[i].key, caps0[i % n].user.displayName)
    {
      if i < k {
        assert s'.results[i] == s.results[i];
      }
    }
  }

  /** After `k` issues, within two full rounds: the cursor is `k mod n`, entry `j`
      has given up one unit per visit, and issue `i` went to entry `i mod n`. */
  lemma {:induction false} RotationPrefix(caps0: seq<UserCap>, issues: seq<IssueDto>,
                                          put: (nat, string) -> PutOutcome, k: nat)
    requires Fresh(caps0) && AlwaysSucceeds(put)
    requires k <= |issues| && k <= MaxTasksPerUser * |caps0|
    ensures Rotated(caps0, issues, Run(Init(caps0), issues[..k], put), k)
  {
    var n := |caps0|;
    if k == 0 {
      assert Run(Init(caps0), issues[..0], put) == Init(caps0) by { assert issues[..0] == []; }
      assert RotatedCaps(caps0, 0, 0) == caps0 by {
        forall j | 0 <= j < n
          ensures RotatedCaps(caps0, 0, 0)[j] == caps0[j]
        {
        }
      }
      assert 0 % n == 0 && 0 / n == 0;
    } else {
      var prev := Run(Init(caps0), issues[..k - 1], put);
      RotationPrefix(caps0, issues, put, k - 1);
      RotationStep(caps0, issues, prev, put, k - 1);
      assert Run(Init(caps0), issues[..k], put) == Step(prev, issues[k - 1], put) by {
        assert issues[..k][..k - 1] == issues[..k - 1];
      }
    }
  }

  /** Active users holding nothing each enter the capacity list with two units, in roster order. */
  lemma {:induction false} IdleTeamCaps(users: seq<User>, counts: map<string, nat>)
    requires forall j :: 0 <= j < |users| ==> users[j].active && CountIn(counts, users[j].accountId) == 0
    ensures var caps := AvailableUsers(users, counts);
      |caps| == |users| && forall j :: 0 <= j < |users| ==> caps[j] == UserCap(users[j], MaxTasksPerUser)
  {
    if users != [] {
      IdleTeamCaps(users[1..], counts);
    }
  }

  /** The whole pass for an idle, fully active team with at most two issues per
      member and a PUT that always succeeds: issue k goes to member k mod n, every
      issue is assigned, and the summary counts them all. */
  lemma {:induction false} RoundRobinPass(unassigned: seq<IssueDto>, users: seq<User>, allIssues: seq<IssueDto>,
                                          put: (nat, string) -> PutOutcome)
    requires 0 < |users| && 0 < |unassigned| <= MaxTasksPerUser * |users|
    requires forall j :: 0 <= j < |users| ==> users[j].active && LoadOf(allIssues, users[j].accountId) == 0
    requires AlwaysSucceeds(put)
    ensures var r := AutoAssignPass(unassigned, users, allIssues, put);
      && r.success
      && r.results.Some? && |r.results.value| == |unassigned|
      && (forall k :: 0 <= k < |unassigned| ==>
            r.results.value[k] == Assigned(unassigned[k].key, users[k % |users|].displayName))
      && r.summary == Some(Summary(|unassigned|, |unassigned|))
  {
    var counts := LoadMap(allIssues);
    forall j | 0 <= j < |users|
      ensures CountIn(counts, users[j].accountId) == 0
    {
      LoadMapCounts(allIssues, users[j].accountId);
    }
    IdleTeamCaps(users, counts);
    var caps := AvailableUsers(users, counts);
    assert Fresh(caps);
    RotationPrefix(caps, unassigned, put, |unassigned|);
    assert unassigned[..|unassigned|] == unassigned;
    var rs := Run(Init(caps), unassigned, put).results;
    AllAssigned(rs);
    PassReportsLoop(unassigned, users, allIssues, put);
  }

  lemma {:induction false} AllAssigned(rs: seq<AssignResult>)
    requires forall k :: 0 <= k < |rs| ==> rs[k].success
    ensures SuccessCount(rs) == |rs|
  {
    if rs != [] {
      AllAssigned(rs[1..]);
    }
  }
}
