/**
 * The fields dictionary both story tools send to Jira's issue-create call:
 * a fixed project, issue type and priority, the story's title as summary, and
 * a description that appends the acceptance criteria as a bulleted list.
 */
module JiraPayload {

  /** `{"key": ...}` in the payload. */
  datatype Keyed = Keyed(key: string)

  /** `{"name": ...}` in the payload. */
  datatype Named = Named(name: string)

  /** The `fields` dictionary of a new issue. */
  datatype Issue = Issue(project: Keyed, summary: string, description: string, issuetype: Named, priority: Named)

  const ProjectKey := "LI"
  const IssueType := "Story"
  const Priority := "Medium"

  /** The separator the tools join with: a line break and a list marker. */
  const Bullet := "\n- "

  /** `s` ends with `suffix`. */
  predicate EndsWith(s: string, suffix: string) {
    |suffix| <= |s| && s[|s| - |suffix|..] == suffix
  }

  /** Python's `sep.join(parts)`: the parts with `sep` between neighbours. */
  function Join(sep: string, parts: seq<string>): (r: string)
    ensures parts == [] ==> r == ""
    ensures parts != [] ==> parts[0] <= r && EndsWith(r, parts[|parts| - 1])
  {
    if |parts| == 0 then ""
    else if |parts| == 1 then parts[0]
    else parts[0] + sep + Join(sep, parts[1..])
  }

  /** The criteria as a bulleted list: each criterion, in order, preceded by a line break and "- ". */
  function Bulleted(criteria: seq<string>): string
  {
    if criteria == [] then "" else Bullet + criteria[0] + Bulleted(criteria[1..])
  }

  /** The criteria text as the tools compute it, `"\n- ".join([""] + criteria)`. */
  function CriteriaText(criteria: seq<string>): (text: string)
    ensures text == Bulleted(criteria)
  {
    JoinAfterEmpty(criteria);
    Join(Bullet, [""] + criteria)
  }

  /** Joining after a leading part `x` is `x` followed by joining after an empty part. */
  lemma JoinCons(sep: string, x: string, rest: seq<string>)
    ensures Join(sep, [x] + rest) == x + Join(sep, [""] + rest)
  {
    if rest == [] {
      assert [x] + rest == [x];
      assert [""] + rest == [""];
    } else {
      assert ([x] + rest)[1..] == rest;
      assert ([""] + rest)[1..] == rest;
    }
  }

  /** Joining `[""] + criteria` with the bullet separator gives the bulleted list. */
  lemma {:induction false} JoinAfterEmpty(criteria: seq<string>)
    ensures Join(Bullet, [""] + criteria) == Bulleted(criteria)
  {
    if criteria == [] {
      assert [""] + criteria == [""];
    } else {
      var rest := criteria[1..];
      assert ([""] + criteria)[1..] == criteria;
      assert criteria == [criteria[0]] + rest;
      calc {
        Join(Bullet, [""] + criteria);
        "" + Bullet + Join(Bullet, criteria);
        { JoinCons(Bullet, criteria[0], rest); }
        Bullet + criteria[0] + Join(Bullet, [""] + rest);
        { JoinAfterEmpty(rest); }
        Bullet + criteria[0] + Bulleted(rest);
      }
    }
  }

  /** The list for `a + b` is the list for `a` followed by the list for `b`. */
  lemma {:induction false} BulletedAppend(a: seq<string>, b: seq<string>)
    ensures Bulleted(a + b) == Bulleted(a) + Bulleted(b)
  {
    if a == [] {
      assert a + b == b;
    } else {
      assert (a + b)[1..] == a[1..] + b;
      BulletedAppend(a[1..], b);
    }
  }

  /**
   * Every criterion appears, after its own bullet, between the criteria before it
   * and the criteria after it: the list keeps the input order.
   */
  lemma {:induction false} BulletedAt(criteria: seq<string>, i: nat)
    requires i < |criteria|
    ensures Bulleted(criteria) == Bulleted(criteria[..i]) + Bullet + criteria[i] + Bulleted(criteria[i + 1..])
  {
    var tail := criteria[i..];
    assert criteria == criteria[..i] + tail;
    BulletedAppend(criteria[..i], tail);
    assert tail[0] == criteria[i] && tail[1..] == criteria[i + 1..];
    assert Bulleted(tail) == Bullet + criteria[i] + Bulleted(criteria[i + 1..]);
  }

  /** The list is as long as the criteria plus three characters of bullet per criterion. */
  lemma {:induction false} BulletedLength(criteria: seq<string>)
    ensures |Bulleted(criteria)| == |Join("", criteria)| + |Bullet| * |criteria|
  {
    if |criteria| > 1 {
      BulletedLength(criteria[1..]);
    }
  }

  /**
   * The issue fields for one story. `indent` is the leading whitespace that the
   * tool's triple-quoted description template carries on its continuation lines.
   */
  function StoryIssue(indent: string, title: string, description: string, criteria: seq<string>): (issue: Issue)
    ensures issue.project.key == "LI" && issue.issuetype.name == "Story" && issue.priority.name == "Medium"
    ensures issue.summary == title
    ensures issue.description == description + "\n" + indent + "Acceptance Criteria:\n" + indent + Bulleted(criteria)
  {
    Issue(
      Keyed(ProjectKey),
      title,
      description + "\n" + indent + "Acceptance Criteria:\n" + indent + CriteriaText(criteria),
      Named(IssueType),
      Named(Priority))
  }
}
