/**
 * The nodes of the `ddd` package (ddd/src/nodes.py): the requirement node stores the
 * generated stories, and the story node sends one Jira request per story, in list
 * order, handing the graph state back unchanged.
 */
module DddNodes {
  import opened Wrappers
  import opened Stories
  import opened GraphState
  import opened JiraTools

  /** The keys of the `ddd` package's LifeCycleState. */
  const LifeCycleKeys := {"prompt", "content", "user_stories"}

  /** `get_user_requirements`: stores the generator's output (`generated`) under `user_stories` and writes nothing else. */
  function GetUserRequirements(state: State, generated: UserStories): (u: State)
    ensures u.Keys == {"user_stories"} && u.Keys <= LifeCycleKeys
    ensures u["user_stories"] == Structured(generated)
  {
    map["user_stories" := Structured(generated)]
  }

  /** The requests for `stories` when the calls at positions in `failing` are refused: one per story, in order. */
  function Requests(stories: seq<UserStory>, failing: set<nat>): (t: seq<Attempt>)
    ensures |t| == |stories|
    ensures forall i :: 0 <= i < |stories| ==>
              t[i] == Attempt(UserStoryFields(stories[i].title, stories[i].description, stories[i].acceptanceCriteria),
                              i !in failing)
  {
    seq(|stories|, i requires 0 <= i < |stories| =>
      Attempt(UserStoryFields(stories[i].title, stories[i].description, stories[i].acceptanceCriteria), i !in failing))
  }

  /**
   * `create_user_stories`: with no stories it returns nothing and sends no request;
   * otherwise it sends one request per story, in order, even after a refused one
   * (the tool swallows the failure), and returns the state as it was.
   */
  method CreateUserStories(jira: JiraTool, state: State, failing: set<nat>) returns (r: Option<State>)
    requires "user_stories" in state && state["user_stories"].Structured?
    modifies jira
    ensures state["user_stories"].stories.stories == [] ==> r == None && jira.attempts == old(jira.attempts)
    ensures state["user_stories"].stories.stories != [] ==>
              r == Some(state)
              && jira.attempts == old(jira.attempts) + Requests(state["user_stories"].stories.stories, failing)
  {
    var stories := state["user_stories"].stories.stories;
    if stories == [] {
      return None;
    }
    for i := 0 to |stories|
      invariant jira.attempts == old(jira.attempts) + Requests(stories, failing)[..i]
    {
      var story := stories[i];
      jira.CreateUserStory(story.title, story.description, story.acceptanceCriteria, i !in failing);
    }
    assert Requests(stories, failing)[..|stories|] == Requests(stories, failing);
    return Some(state);
  }
}
