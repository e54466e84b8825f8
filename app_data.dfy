/** The derived figures the panel shows over the loaded issues and users: how
    many issues are unassigned, how many need attention, each user's load, and
    which users can still take work. */
module AppData {
  import opened Jira
  import AutoAssign
  import IssueMapping

  /** Seven days in milliseconds: the horizon of a "soon" deadline. */
  const WeekMs: int := 7 * 24 * 60 * 60 * 1000

  predicate IsUnassigned(i: Issue)
  {
    i.assignee.None?
  }

  predicate IsLowPriority(i: Issue)
  {
    i.priority.name == "Low" || i.priority.name == "Lowest"
  }

  /** Low or Lowest priority with a due date strictly before a week from `now`. */
  predicate IsLowWithDeadline(i: Issue, now: int)
  {
    IsLowPriority(i) && i.duedate.Some? && i.duedate.value < now + WeekMs
  }

  /** An issue needs attention if nobody holds it or it is low priority and due soon. */
  predicate IsProblem(i: Issue, now: int)
  {
    IsUnassigned(i) || IsLowWithDeadline(i, now)
  }

  function UnassignedCount(issues: seq<Issue>): (n: nat)
    ensures n <= |issues|
  {
    if issues == [] then 0
    else (if IsUnassigned(issues[0]) then 1 else 0) + UnassignedCount(issues[1..])
  }

  function ProblemCount(issues: seq<Issue>, now: int): (n: nat)
    ensures n <= |issues|
  {
    if issues == [] then 0
    else (if IsProblem(issues[0], now) then 1 else 0) + ProblemCount(issues[1..], now)
  }

  /** How many issues are held by `accountId`. */
  function Load(issues: seq<Issue>, accountId: string): (n: nat)
    ensures n <= |issues|
  {
    if issues == [] then 0
    else (if issues[0].assignee.Some? && issues[0].assignee.value.accountId == accountId then 1 else 0)
         + Load(issues[1..], accountId)
  }

  /** The Team tab's "can take work" badge: fewer than two issues held. */
  predicate GetUserActivity(issues: seq<Issue>, u: User)
  {
    Load(issues, u.accountId) < Jira.MaxTasksPerUser
  }

  function ActiveUsers(users: seq<User>, issues: seq<Issue>): (r: seq<User>)
    ensures |r| <= |users|
    ensures forall k :: 0 <= k < |r| ==> r[k].active && GetUserActivity(issues, r[k])
  {
    if users == [] then []
    else
      var rest := ActiveUsers(users[1..], issues);
      if users[0].active && GetUserActivity(issues, users[0]) then [users[0]] + rest else rest
  }

  function ActiveUsersCount(users: seq<User>, issues: seq<Issue>): (n: nat)
    ensures n <= |users|
  {
    |ActiveUsers(users, issues)|
  }

  // ---------------------------------------------------------------------------
  // Properties

  /** Every unassigned issue is a problem, so the counts are ordered. */
  lemma {:induction false} CountsOrdered(issues: seq<Issue>, now: int)
    ensures UnassignedCount(issues) <= ProblemCount(issues, now) <= |issues|
  {
    if issues != [] {
      CountsOrdered(issues[1..], now);
    }
  }

  /** The counts are zero exactly when no issue qualifies. */
  lemma {:induction false} CountsZero(issues: seq<Issue>, now: int)
    ensures UnassignedCount(issues) == 0 <==> forall k :: 0 <= k < |issues| ==> !IsUnassigned(issues[k])
    ensures ProblemCount(issues, now) == 0 <==> forall k :: 0 <= k < |issues| ==> !IsProblem(issues[k], now)
  {
    if issues != [] {
      CountsZero(issues[1..], now);
      assert forall k :: 1 <= k < |issues| ==> issues[k] == issues[1..][k - 1];
    }
  }

  /** Counting over two batches of issues adds up. */
  lemma {:induction false} CountsAppend(xs: seq<Issue>, ys: seq<Issue>, now: int, accountId: string)
    ensures UnassignedCount(xs + ys) == UnassignedCount(xs) + UnassignedCount(ys)
    ensures ProblemCount(xs + ys, now) == ProblemCount(xs, now) + ProblemCount(ys, now)
    ensures Load(xs + ys, accountId) == Load(xs, accountId) + Load(ys, accountId)
  {
    if xs == [] {
      assert xs + ys == ys;
    } else {
      assert (xs + ys)[1..] == xs[1..] + ys;
      CountsAppend(xs[1..], ys, now, accountId);
    }
  }

  /** Without a due date, or with a priority above Low, an issue is a problem
      exactly when it is unassigned. */
  lemma {:induction false} ProblemCases(i: Issue, now: int)
    ensures i.duedate.None? ==> (IsProblem(i, now) <==> IsUnassigned(i))
    ensures !IsLowPriority(i) ==> (IsProblem(i, now) <==> IsUnassigned(i))
  {
  }

  /** A user is listed as active iff they are on the roster, active and hold fewer than two issues. */
  lemma {:induction false} ActiveUsersMembership(users: seq<User>, issues: seq<Issue>, u: User)
    ensures u in ActiveUsers(users, issues) <==> u in users && u.active && Load(issues, u.accountId) < 2
  {
    if users != [] {
      ActiveUsersMembership(users[1..], issues, u);
      assert users == [users[0]] + users[1..];
    }
  }

  /** The active users keep the roster's order. */
  lemma {:induction false} ActiveUsersKeepsOrder(users: seq<User>, issues: seq<Issue>)
    ensures AutoAssign.IsSubsequence(ActiveUsers(users, issues), users)
  {
    if users != [] {
      ActiveUsersKeepsOrder(users[1..], issues);
      var rest := ActiveUsers(users[1..], issues);
      var all := ActiveUsers(users, issues);
      if users[0].active && GetUserActivity(issues, users[0]) {
        assert all[0] == users[0] && all[1..] == rest;
      } else if rest != [] {
        assert all == rest;
      }
    }
  }

  // ---------------------------------------------------------------------------
  // Agreement with the auto-assign pass

  /** The load the panel shows for an account equals the load auto-assign counts,
      as long as no assignee in the search response has an empty accountId. */
  lemma {:induction false} LoadAgrees(dtos: seq<IssueDto>, accountId: string)
    requires forall k :: 0 <= k < |dtos| && dtos[k].fields.assignee.Some? ==> dtos[k].fields.assignee.value.accountId != ""
    ensures Load(IssueMapping.MapIssues(dtos), accountId) == AutoAssign.LoadOf(dtos, accountId)
  {
    if dtos != [] {
      LoadAgrees(dtos[1..], accountId);
      assert IssueMapping.MapIssues(dtos)[1..] == IssueMapping.MapIssues(dtos[1..]);
    }
  }

  /** The users the panel shows as able to take work are exactly, and in the same
      order, the users the auto-assign pass puts on its capacity list. */
  lemma {:induction false} ActiveUsersAreAutoAssignCandidates(users: seq<User>, dtos: seq<IssueDto>)
    requires forall k :: 0 <= k < |dtos| && dtos[k].fields.assignee.Some? ==> dtos[k].fields.assignee.value.accountId != ""
    ensures ActiveUsers(users, IssueMapping.MapIssues(dtos))
         == AutoAssign.UsersOf(AutoAssign.AvailableUsers(users, AutoAssign.LoadMap(dtos)))
  {
    if users != [] {
      ActiveUsersAreAutoAssignCandidates(users[1..], dtos);
      var u := users[0];
      LoadAgrees(dtos, u.accountId);
      AutoAssign.LoadMapCounts(dtos, u.accountId);
      var rest := AutoAssign.AvailableUsers(users[1..], AutoAssign.LoadMap(dtos));
      var all := AutoAssign.AvailableUsers(users, AutoAssign.LoadMap(dtos));
      if u.active && AutoAssign.Remaining(AutoAssign.LoadMap(dtos), u) > 0 {
        assert AutoAssign.UsersOf(all) == [u] + AutoAssign.UsersOf(rest);
      } else {
        assert all == rest;
      }
    }
  }
}
