/**
 * The Jira tool of the `ddd` package (ddd/src/tools.py): it holds a Jira client
 * and, per story, builds the issue fields and asks the client to create the issue,
 * reporting but swallowing a failure.
 */
module JiraTools {
  import opened JiraPayload

  /** The continuation-line indentation of the tool's description template. */
  const Indent := "            "

  /** The payload for one story: fixed project, type and priority; title as summary; criteria appended as a list. */
  function UserStoryFields(title: string, description: string, criteria: seq<string>): (issue: Issue)
    ensures issue.project.key == "LI" && issue.issuetype.name == "Story" && issue.priority.name == "Medium"
    ensures issue.summary == title
    ensures issue.description == description + "\n" + Indent + "Acceptance Criteria:\n" + Indent + Bulleted(criteria)
  {
    StoryIssue(Indent, title, description, criteria)
  }

  /** One issue-create request sent through the client, and whether the server created the issue. */
  datatype Attempt = Attempt(fields: Issue, created: bool)

  /** The issues the server created, in request order. */
  function Created(attempts: seq<Attempt>): (issues: seq<Issue>)
    ensures |issues| <= |attempts|
    ensures forall x :: x in issues <==> exists a :: a in attempts && a.created && a.fields == x
  {
    if attempts == [] then []
    else (if attempts[0].created then [attempts[0].fields] else []) + Created(attempts[1..])
  }

  /** The tool; its client is seen through the requests sent to it. */
  class JiraTool {
    var attempts: seq<Attempt>

    /** A tool whose client has not been used yet (the connection settings come from the environment). */
    constructor ()
      ensures attempts == []
    {
      attempts := [];
    }

    /**
     * Sends the story's payload; `accepted` is the server's answer. A refusal is caught
     * and reported, so the call returns normally either way and only the outcome differs.
     */
    method CreateUserStory(title: string, description: string, criteria: seq<string>, accepted: bool)
      modifies this
      ensures attempts == old(attempts) + [Attempt(UserStoryFields(title, description, criteria), accepted)]
      ensures Created(attempts) == Created(old(attempts)) + (if accepted then [UserStoryFields(title, description, criteria)] else [])
    {
      var fields := UserStoryFields(title, description, criteria);
      CreatedAppend(attempts, Attempt(fields, accepted));
      attempts := attempts + [Attempt(fields, accepted)];
    }
  }

  /** Recording one more request extends the created issues by that request's issue if it was created. */
  lemma {:induction false} CreatedAppend(attempts: seq<Attempt>, a: Attempt)
    ensures Created(attempts + [a]) == Created(attempts) + (if a.created then [a.fields] else [])
  {
    var tail := if a.created then [a.fields] else [];
    if attempts == [] {
      assert attempts + [a] == [a];
      assert Created([a]) == tail + Created([]);
    } else {
      var head := if attempts[0].created then [attempts[0].fields] else [];
      assert (attempts + [a])[0] == attempts[0];
      assert (attempts + [a])[1..] == attempts[1..] + [a];
      calc {
        Created(attempts + [a]);
        head + Created(attempts[1..] + [a]);
        { CreatedAppend(attempts[1..], a); }
        head + (Created(attempts[1..]) + tail);
        (head + Created(attempts[1..])) + tail;
        Created(attempts) + tail;
      }
    }
  }
}
