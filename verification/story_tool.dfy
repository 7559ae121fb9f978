/**
 * The story tool of the `src` package (src/tools/create_user_story.py): it builds
 * the Jira fields for one story and prints them; the issue-create call itself is
 * disabled there, so building the payload is all it does.
 */
module StoryTool {
  import opened JiraPayload

  /** The continuation-line indentation of the tool's description template. */
  const Indent := "        "

  /** The payload for one story: fixed project, type and priority; title as summary; criteria appended as a list. */
  function CreateUserStory(title: string, description: string, criteria: seq<string>): (issue: Issue)
    ensures issue.project.key == "LI" && issue.issuetype.name == "Story" && issue.priority.name == "Medium"
    ensures issue.summary == title
    ensures issue.description == description + "\n" + Indent + "Acceptance Criteria:\n" + Indent + Bulleted(criteria)
  {
    StoryIssue(Indent, title, description, criteria)
  }
}
