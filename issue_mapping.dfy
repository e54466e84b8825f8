/** The mapping of issue-search hits to the panel's issue records, with a default
    for every field the hit may lack. */
module IssueMapping {
  import opened Jira

  /** `value || fallback` on an optional string: a missing or empty value falls back. */
  function OrDefault(s: Option<string>, fallback: string): (r: string)
    ensures r == fallback || (s.Some? && r == s.value)
    ensures s.Some? && s.value != "" ==> r == s.value
    ensures s.None? || s.value == "" ==> r == fallback
  {
    match s
    case Some(v) => if v != "" then v else fallback
    case None => fallback
  }

  /** A present assignee becomes an active user; the hit does not say whether it is. */
  function MapAssignee(a: Option<AssigneeDto>): (u: Option<User>)
    ensures u.None? <==> a.None?
    ensures a.Some? ==>
      && u.value.accountId == a.value.accountId && u.value.displayName == a.value.displayName
      && u.value.emailAddress == a.value.emailAddress && u.value.avatarUrl == a.value.avatar24
      && u.value.active
  {
    match a
    case Some(d) => Some(User(d.accountId, d.displayName, d.emailAddress, d.avatar24, true))
    case None => None
  }

  /** The priority's name and id fall back to 'Medium' and '3' independently. */
  function MapPriority(p: Option<Priority>): (r: Priority)
    ensures p.None? ==> r == Priority("Medium", "3")
    ensures r.name != "" && r.id != ""
    ensures p.Some? ==> (p.value.name != "" ==> r.name == p.value.name) && (p.value.id != "" ==> r.id == p.value.id)
  {
    match p
    case Some(q) => Priority(OrDefault(Some(q.name), "Medium"), OrDefault(Some(q.id), "3"))
    case None => Priority("Medium", "3")
  }

  /** One search hit as the panel's issue record. */
  function MapIssue(dto: IssueDto): (i: Issue)
    ensures i.id == dto.id && i.key == dto.key
    ensures i.duedate == dto.fields.duedate
    ensures i.assignee == MapAssignee(dto.fields.assignee) && i.priority == MapPriority(dto.fields.priority)
    ensures (i.assignee.None? <==> dto.fields.assignee.None?) && (i.assignee.Some? ==> i.assignee.value.active)
    ensures i.summary == OrDefault(dto.fields.summary, "") && i.status == OrDefault(dto.fields.statusName, "")
    ensures i.created == OrDefault(dto.fields.created, "") && i.updated == OrDefault(dto.fields.updated, "")
  {
    var f := dto.fields;
    Issue(dto.id, dto.key, OrDefault(f.summary, ""), OrDefault(f.statusName, ""),
          MapAssignee(f.assignee), MapPriority(f.priority), f.duedate,
          OrDefault(f.created, ""), OrDefault(f.updated, ""))
  }

  /** The `.map` over the hits of one search response. */
  function MapIssues(dtos: seq<IssueDto>): (issues: seq<Issue>)
    ensures |issues| == |dtos|
    ensures forall k :: 0 <= k < |dtos| ==> issues[k] == MapIssue(dtos[k])
  {
    seq(|dtos|, k requires 0 <= k < |dtos| => MapIssue(dtos[k]))
  }

  // ---------------------------------------------------------------------------
  // The inverse direction

  /** The search hit that carries exactly the fields of `i`. */
  function ToDto(i: Issue): (dto: IssueDto)
    ensures dto.id == i.id && dto.key == i.key
  {
    var a := match i.assignee
      case Some(u) => Some(AssigneeDto(u.accountId, u.displayName, u.emailAddress, u.avatarUrl))
      case None => None;
    IssueDto(i.id, i.key, FieldsDto(Some(i.summary), Some(i.status), a, Some(i.priority), i.duedate,
                                    Some(i.created), Some(i.updated)))
  }

  /** The records the mapping can produce: a named, identified priority and, if any, an active assignee. */
  predicate Canonical(i: Issue)
  {
    i.priority.name != "" && i.priority.id != "" && (i.assignee.Some? ==> i.assignee.value.active)
  }

  /** Mapping back a hit built from a record gives that record, exactly when the
      record is one the mapping can produce. */
  lemma {:induction false} MapIssueRoundTrip(i: Issue)
    ensures MapIssue(ToDto(i)) == i <==> Canonical(i)
  {
    if Canonical(i) {
      assert MapPriority(Some(i.priority)) == i.priority;
    }
  }

  /** Every mapped record is canonical, so mapping is idempotent through `ToDto`. */
  lemma {:induction false} MapIssueNormalises(dto: IssueDto)
    ensures Canonical(MapIssue(dto))
    ensures MapIssue(ToDto(MapIssue(dto))) == MapIssue(dto)
  {
    MapIssueRoundTrip(MapIssue(dto));
  }
}
