# Review workflows and story tickets, modelled in Dafny

This project models the part of the software-lifecycle demo that the repository
decides for itself:

- **The review workflows as declared graphs.** Three scripts declare a LangGraph
  workflow with a human review step:
  - `practices/app.py`: generate stories, review them, then generate code or revise and review again.
  - `app.py` and `test.py`: answer a query, let the user accept it or ask for changes, then generate code or create a design document.

  The `src` package's `build_workflow` declares a two-node pipeline. Each graph is a
  constant `Topology` over a node enum plus the `Start` and `End` sentinels
  (module `StateGraph`). `build_workflow` is also modelled as the sequence of
  builder calls that produces its table.
- **Nodes and routers.** Each node is a function from the state (a dictionary from the
  script's key names to values) to the partial update it returns. Each router is a
  function from the state to an optional label (`None` when no branch matches).
  Model output, the user's radio choice, feedback text and form submission are
  parameters.
- **Story tickets.** The Jira fields built for one story are modelled, including the
  acceptance-criteria text `"\n- ".join([""] + criteria)`. So are the loops that
  issue one ticket per generated story.

Proved about these:
- each router receives a label from the node before it, and that label is a key of the conditional edge;
- which paths reach END;
- each node writes only its own keys;
- the criteria text is the criteria, in order, each after a bullet;
- the fan-out loops issue one ticket per story, in order, with the story's fields unchanged.

The practices workflow's review reads the feedback from the UI session, which does
not change during a run. With non-empty feedback, the review → revise → review
cycle therefore never reaches code generation (`Practices.FeedbackCyclesForever`).
The revise node also stores the reviser's raw reply under `user_stories`,
a key declared to hold a story list. The model keeps that as text.

Graph execution belongs to the LangGraph library: running nodes, interrupts and
checkpoints. None of it is code in this repository, and the model has no general
executor. What it keeps is the overwrite merge of a node's update into the state
(`GraphState.Merge`), used in three ways:
- to state that a node leaves the other keys alone (`Practices.RequirementIsKept`);
- to hand a node's merged result to the router (`Practices.ReviewIsAlwaysRouted`,
  `Practices.OtherStatusesAreNotRouted`, `App.ReviewIsAlwaysRouted`);
- to run app.py's accepted path node by node from the initial state, merging each
  update in turn (`App.AcceptedRunState`).

The step from one vertex to the next is `StateGraph.Next`, and `Practices.Walk`
iterates it for the practices graph. `StateGraph.WellFormed`
stands for the compile-time checks these graphs pass: known endpoints, one
START edge, sentinels used in one direction only.

## Model

| member | source | states |
|---|---|---|
| `GraphState.Merge` | app.py:106-109 | applying an update keeps every key and adds the update's keys; the update's keys take its values and every other key keeps its old value |
| `GraphState.MergeEmpty` | practices/app.py:72-74 | an update with no keys leaves the state unchanged |
| `StateGraph.Next` | practices/app.py:95-102 | the vertex after `v` is always joined to `v` by a declared edge. At a node with a conditional edge, there is a next vertex exactly when the router's label is a key of its table, and it is the destination the table gives that label. Elsewhere, no next vertex means no static edge leaves `v` |
| `StateGraph.StaticTarget` | src/graphs/workflow_graph.py:18-20 | the target found is on a registered edge out of `v`; none is found only when no edge leaves `v` |
| `StateGraph.GraphBuilder.constructor` | src/graphs/workflow_graph.py:11 | a new builder has no nodes, no edges and no conditional edges |
| `StateGraph.GraphBuilder.AddNode` | src/graphs/workflow_graph.py:14-15 | registers a name not yet registered, after the earlier ones; edges and branches are unchanged |
| `StateGraph.GraphBuilder.AddEdge` | src/graphs/workflow_graph.py:18-20 | appends one edge; nodes and branches are unchanged |
| `StateGraph.GraphBuilder.AddConditionalEdges` | practices/app.py:95-102 | attaches one label-to-destination table to a node that has none; nodes and static edges are unchanged |
| `Practices.CreateUserStoriesNode` | practices/app.py:46-52 | writes exactly `user_stories` (the generated stories) and the status "Pending Review", both declared keys |
| `Practices.ReviewUserStoriesNode` | practices/app.py:55-59 | writes only the status: "Feedback" exactly when the feedback text is non-empty, "Approved" exactly when it is empty |
| `Practices.ReviseUserStoriesNode` | practices/app.py:62-69 | writes exactly `user_stories` (the reviser's reply message, represented by its text) and the status "Revised" |
| `Practices.GenerateCodeNode` | practices/app.py:72-74 | returns an update with no keys |
| `Practices.RouteReviewUserStories` | practices/app.py:77-82 | a label exactly when the status is "Approved" or "Feedback", and then the label of that name |
| `Practices.RouteLabelText` | practices/app.py:77-82 | each label's own status text routes to that label |
| `Practices.ReviewIsAlwaysRouted` | practices/app.py:95-102 | after the review, whatever the state, the router yields a label in the conditional edge's table; that label is Feedback exactly when there is feedback |
| `Practices.OtherStatusesAreNotRouted` | practices/app.py:46-69 | the statuses written by generation ("Pending Review") and revision ("Revised") yield no label |
| `Practices.RequirementIsKept` | practices/app.py:46-74 | generation, review and revision leave `requirement` as it was; code generation leaves the whole state as it was |
| `Practices.ReviewIgnoresState` | practices/app.py:55-59 | the review's update is the same for any two states given the same feedback |
| `Practices.Transitions` | practices/app.py:92-105 | the edges are exactly START→generate, generate→review, review→code (Approved), review→revise (Feedback), revise→review, code→END |
| `Practices.PathsToReview` | practices/app.py:92-104 | a path from START ending at the review is generate, review, then some number of revise-review rounds |
| `Practices.PathsToEnd` | practices/app.py:92-105 | every path from START to END is generate, review, k revise rounds, code generation, END |
| `Practices.ApprovedRunIsPath` | practices/app.py:92-105 | for every k, the run with k revise rounds that is then approved is a path |
| `Practices.ReviewRunIsPath` | practices/app.py:92-104 | for every k, generate, review and k revise rounds form a path |
| `Practices.Step` | practices/app.py:95-104 | the vertex after `v`, with the review routed by the status its own update carries, is joined to `v` by an edge |
| `Practices.FeedbackCyclesForever` | practices/app.py:57-58 | with fixed non-empty feedback, the review/revise cycle stays at review or revise after any number of steps: it never reaches code generation or END |
| `Practices.FeedbackSteps` | practices/app.py:57-58 | with non-empty feedback the review's conditional edge leads to the revision, and the revision's edge leads back to the review |
| `Practices.EmptyFeedbackEnds` | practices/app.py:59 | with empty feedback the review leads to code generation, then END, then nothing |
| `Practices.GraphIsWellFormed` | practices/app.py:85-105 | the declared graph passes the compile-time checks |
| `App.GetUserRequirement` | app.py:106-109 | writes only `content`, holding the model's answer |
| `App.ReviewByUser` | app.py:112-116 | writes only `user_review_status`, whose value is "accepted" or "feedback" |
| `App.CreateDesignDocument` | app.py:119-120 | writes only `documents`, holding "Document created." |
| `App.GenerateCodeNode` | app.py:123-124 | writes only `codes`, holding "Code generated." |
| `App.RouteUserReview` | app.py:127-131 | a label exactly when the status is "accepted" or "feedback": Accepted for "accepted", Feedback for "feedback" |
| `App.RouteOptionOf` | app.py:127-131 | each label's radio option routes to that label |
| `App.ReviewIsAlwaysRouted` | app.py:115-131 | whatever the user selects, the router yields a label of the conditional edge's table, the one for the selected option |
| `App.AcceptedRunState` | app.py:106-155 | an accepted run from a query ends with exactly the query, the answer, status "accepted" and the code marker; no design document |
| `App.Transitions` | app.py:145-155 | the edges are exactly START→answer, answer→review, review→code (Accepted), review→design document (Feedback), code→END |
| `App.PathsFromStart` | app.py:145-155 | every path from START is a prefix of the accepted run or of the feedback run, which stops at the design document |
| `App.OnlyAcceptedReachesEnd` | app.py:147-155 | the only path from START to END is the accepted run, and it never passes the design document |
| `App.RunsArePaths` | app.py:145-155 | the accepted run and the feedback run are both paths |
| `App.GraphIsWellFormed` | app.py:135-155 | the declared graph passes the compile-time checks |
| `TestApp.SameGraphAsApp` | test.py:100-116 | the declared graph is app.py's |
| `TestApp.OnlyAcceptedReachesEnd` | test.py:106-116 | the only path from START to END is the accepted run |
| `TestApp.RouteUserReview` | test.py:92-96 | routes every state exactly as app.py's router does |
| `TestApp.GenerateCodeNode` | test.py:88-89 | returns the same update as app.py's code node |
| `TestApp.Session.constructor` | test.py:24-29 | the first run's session has empty content, no status and empty feedback |
| `TestApp.Session.GetUserRequirement` | test.py:33-38 | keeps the answer in the session and writes only `content` with it; the other session fields are unchanged and the session invariant is kept |
| `TestApp.Session.ReviewByUser` | test.py:41-75 | an unset status defaults to "feedback". On submit it stores the choice, keeps the feedback only under "feedback", and reruns without returning. Otherwise it returns exactly status and feedback, which the router maps. The session invariant is kept |
| `TestApp.Session.CreateDesignDocument` | test.py:78-85 | writes only `documents`. Non-empty state feedback gives "Document created based on feedback: " followed by the session feedback. Otherwise it gives "Document created.", also kept in the session. The session invariant is kept |
| `JiraPayload.CriteriaText` | src/tools/create_user_story.py:16 | the joined criteria text equals the bulleted list: each criterion after "\n- ", in order; no criteria give "" |
| `JiraPayload.Join` | src/tools/create_user_story.py:16 | Python's `str.join`: no parts give "", otherwise the result starts with the first part and ends with the last |
| `JiraPayload.JoinCons` | ddd/src/tools.py:13 | joining after a leading part is that part followed by joining after an empty part |
| `JiraPayload.JoinAfterEmpty` | ddd/src/tools.py:13 | `"\n- ".join([""] + criteria)` is the bulleted list |
| `JiraPayload.BulletedAppend` | src/tools/create_user_story.py:16 | the list for two criteria lists concatenated is the two lists concatenated |
| `JiraPayload.BulletedAt` | src/tools/create_user_story.py:16 | criterion i sits, after its bullet, between the list of the criteria before it and the list of those after it |
| `JiraPayload.BulletedLength` | src/tools/create_user_story.py:16 | the list is as long as the criteria together plus three characters per criterion |
| `JiraPayload.StoryIssue` | ddd/src/tools.py:16-24 | project "LI", type "Story", priority "Medium" for any input. The summary is the title. The description is the given description, the "Acceptance Criteria:" line, then the bulleted criteria |
| `StoryTool.CreateUserStory` | src/tools/create_user_story.py:15-27 | the same fields, with the eight-space indentation of this tool's template |
| `JiraTools.UserStoryFields` | ddd/src/tools.py:12-24 | the same fields, with the twelve-space indentation of this tool's template |
| `JiraTools.Created` | ddd/src/tools.py:26-30 | the created issues are exactly the fields of the accepted requests, no more of them than requests |
| `JiraTools.CreatedAppend` | ddd/src/tools.py:26-30 | one more request adds its issue to the created ones exactly when the server accepted it |
| `JiraTools.JiraTool.constructor` | ddd/src/tools.py:5-10 | a new tool's client has received no request |
| `JiraTools.JiraTool.CreateUserStory` | ddd/src/tools.py:12-30 | sends exactly one request with this story's fields, returns normally whether or not the server accepts it, and adds the issue to the created ones only when accepted |
| `UserStoryNode.Ticket` | src/nodes/user_story.py:11-15 | the ticket for a story has the fixed project, issue type and priority, the story's title as summary, and a description made of the story's description, the 8-space-indented "Acceptance Criteria:" heading and the story's criteria as a bulleted list, all passed on unchanged |
| `UserStoryNode.TicketLog.constructor` | src/tools/create_user_story.py:35 | before the node runs, the story tool has output no payload |
| `UserStoryNode.TicketLog.Record` | src/tools/create_user_story.py:35 | each call of the story tool outputs one more payload, after the earlier ones, and nothing else changes |
| `UserStoryNode.Tickets` | src/nodes/user_story.py:9-15 | one ticket per story, the ticket at position i being story i's |
| `UserStoryNode.CreateUserStories` | src/nodes/user_story.py:4-17 | no stories: returns nothing and logs no ticket. Otherwise logs the tickets of all stories in order after the earlier ones, and returns the state unchanged |
| `DddNodes.GetUserRequirements` | ddd/src/nodes.py:42-48 | writes only `user_stories`, holding the generated stories |
| `DddNodes.Requests` | ddd/src/nodes.py:56-61 | one request per story; request i carries story i's fields and fails exactly when call i is refused |
| `DddNodes.CreateUserStories` | ddd/src/nodes.py:51-63 | no stories: returns nothing and sends no request. Otherwise sends one request per story in order, continuing past refused ones, and returns the state unchanged |
| `WorkflowGraph.BuildWorkflow` | src/graphs/workflow_graph.py:7-22 | the builder calls register exactly the constant workflow table |
| `WorkflowGraph.Shape` | src/graphs/workflow_graph.py:14-15 | exactly two distinct nodes, no conditional edge, and the compile-time checks pass |
| `WorkflowGraph.Transitions` | src/graphs/workflow_graph.py:18-20 | the edges are exactly START→requirement, requirement→stories, stories→END |
| `WorkflowGraph.PathsFromStart` | src/graphs/workflow_graph.py:18-20 | every path from START is a prefix of START, requirement, stories, END: no branch and no cycle |
| `WorkflowGraph.RunIsThePathToEnd` | src/graphs/workflow_graph.py:18-20 | the only path from START to END visits each node exactly once, requirement first |
| `WorkflowGraph.RunIsPath` | src/graphs/workflow_graph.py:18-20 | that run is a path |

## Left out

- The LangGraph executor is not modelled: `compile`, `invoke`, `stream`, running nodes in turn, interrupts, `MemorySaver` checkpoints and `tools_condition` (human_in_the_loop.py). It is a library, not code of this repository.
- The model calls (`ChatGroq` and `with_structured_output`) are parameters: the generated stories, the answer and the reviser's reply. The prompt strings they are sent are not modelled.
- The Streamlit pages are not modelled: widgets, display code, buttons and the session defaults of practices/app.py:23-33. The feedback that practices' review reads from the session is a parameter.
- The radio button's preselected index (test.py:52) is not modelled. The option the user ends up with is a parameter.
- The Jira network call is reduced to its outcome, the `accepted` parameter. Issue keys and the printed messages are left out. So is the "Title:" line the `src` story node prints.
- `Tool.get_jira_tool` (ddd/src/tools.py:35-41) is left out: it only hands back the tool it holds.
- data/, main.py, ddd/src/app.py, ddd/src/llms.py, ddd/src/ui/app.py and human_in_the_loop.py are not part of this model. They are UI glue, a duplicate of the `src` pipeline, or constructor dispatch over model classes.
- src/nodes/user_requirement.py is not part of this model. It writes only `user_stories`, exactly like `DddNodes.GetUserRequirements`.
- The state schemas are modelled as sets of key names (`Keys`, `LifeCycleKeys`); value types are not enforced on updates.
- `StateGraph.Next` covers the graphs' own shapes only: one static edge or one conditional edge per node. Parallel fan-out from several edges is not modelled.
- `StateGraph.GraphBuilder.AddEdge` checks nothing when called. Endpoint validation happens in `compile`, which stands here as the `WellFormed` predicate proved of each graph. The compile errors themselves are not modelled.
- `Practices.Step` routes the review by the review's own update and keeps no evolving state. It is a view of routing only, not of a run.
- `JiraPayload.BulletedAt` states order and position, not uniqueness: a criterion that itself contains another criterion, or the bullet text, can also appear elsewhere in the text.
- test.py reads `st.session_state.documents` at line 142 before any node sets it. That is display code and is not modelled.
