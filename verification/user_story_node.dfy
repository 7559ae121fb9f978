/**
 * The story node of the `src` package (src/nodes/user_story.py): one ticket per
 * generated story, in list order; the graph state itself is handed back unchanged.
 */
module UserStoryNode {
  import opened Wrappers
  import opened Stories
  import opened GraphState
  import opened JiraPayload
  import StoryTool

  /** The ticket payloads the story tool has produced so far, in order. */
  class TicketLog {
    var issues: seq<Issue>

    constructor ()
      ensures issues == []
    {
      issues := [];
    }

    /** Records one more payload after the earlier ones. */
    method Record(issue: Issue)
      modifies this
      ensures issues == old(issues) + [issue]
    {
      issues := issues + [issue];
    }
  }

  /** The payload the story tool builds for `story`, from its fields as they are. */
  function Ticket(story: UserStory): (issue: Issue)
    ensures issue.project == Keyed(ProjectKey) && issue.issuetype == Named(IssueType) && issue.priority == Named(Priority)
    ensures issue.summary == story.title
    ensures issue.description == story.description + "\n" + StoryTool.Indent + "Acceptance Criteria:\n"
                                 + StoryTool.Indent + Bulleted(story.acceptanceCriteria)
  {
    StoryTool.CreateUserStory(story.title, story.description, story.acceptanceCriteria)
  }

  /** The payloads for `stories`: exactly one per story, at the story's own position. */
  function Tickets(stories: seq<UserStory>): (t: seq<Issue>)
    ensures |t| == |stories|
    ensures forall i :: 0 <= i < |stories| ==> t[i] == Ticket(stories[i])
  {
    if stories == [] then [] else [Ticket(stories[0])] + Tickets(stories[1..])
  }

  /**
   * `create_user_stories`: with no stories it returns nothing and issues no ticket;
   * otherwise it issues one ticket per story, in order, and returns the state as it was.
   */
  method CreateUserStories(log: TicketLog, state: State) returns (r: Option<State>)
    requires "user_stories" in state && state["user_stories"].Structured?
    modifies log
    ensures state["user_stories"].stories.stories == [] ==> r == None && log.issues == old(log.issues)
    ensures state["user_stories"].stories.stories != [] ==>
              r == Some(state) && log.issues == old(log.issues) + Tickets(state["user_stories"].stories.stories)
  {
    var stories := state["user_stories"].stories.stories;
    if stories == [] {
      return None;
    }
    ghost var all := Tickets(stories);
    for i := 0 to |stories|
      invariant log.issues == old(log.issues) + all[..i]
    {
      var story := stories[i];
      log.Record(StoryTool.CreateUserStory(story.title, story.description, story.acceptanceCriteria));
      assert all[..i + 1] == all[..i] + [all[i]];
    }
    assert all[..|stories|] == all;
    return Some(state);
  }
}
