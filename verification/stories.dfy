/**
 * The story records the generators return and the tools consume
 * (src/state/user_stories.py, repeated in practices/app.py and ddd/src/nodes.py).
 */
module Stories {

  /** One user story: a title, its explanation and the criteria that close it. */
  datatype UserStory = UserStory(title: string, description: string, acceptanceCriteria: seq<string>)

  /** The structured output of the story generator. */
  datatype UserStories = UserStories(stories: seq<UserStory>)
}
