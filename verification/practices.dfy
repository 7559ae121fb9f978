/**
 * The story-review workflow of practices/app.py: generate stories from a requirement,
 * review them, and either go on to code generation or revise and review again.
 * The generator's and reviser's model outputs and the reviewer's feedback text are
 * parameters.
 */
module Practices {
  import opened Wrappers
  import opened Stories
  import opened GraphState
  import opened StateGraph

  /** The keys of the workflow's state. */
  const Keys := {"requirement", "user_stories", "user_stories_review_status"}

  datatype Node = CreateUserStories | ReviewUserStories | ReviseUserStories | GenerateCode

  /** The labels of the review node's conditional edge. */
  datatype Label = Approved | Feedback

  /** The declared graph. */
  const Graph: Topology<Node, Label> := Topology(
    [CreateUserStories, ReviewUserStories, ReviseUserStories, GenerateCode],
    [ (Start, Node(CreateUserStories)),
      (Node(CreateUserStories), Node(ReviewUserStories)),
      (Node(ReviseUserStories), Node(ReviewUserStories)),
      (Node(GenerateCode), End) ],
    map[ReviewUserStories := map[Approved := Node(GenerateCode), Feedback := Node(ReviseUserStories)]])

  /** The review status text a label stands for. */
  function LabelText(l: Label): string {
    match l
    case Approved => "Approved"
    case Feedback => "Feedback"
  }

  // ---------------------------------------------------------------- nodes

  /** `create_user_stories`: stores the generated stories and marks them pending review; nothing else is written. */
  function CreateUserStoriesNode(state: State, generated: UserStories): (u: State)
    ensures u.Keys == {"user_stories", "user_stories_review_status"} && u.Keys <= Keys
    ensures u["user_stories"] == Structured(generated)
    ensures u["user_stories_review_status"] == Text("Pending Review")
  {
    map["user_stories" := Structured(generated), "user_stories_review_status" := Text("Pending Review")]
  }

  /**
   * `review_user_stories`: the state is not consulted; any feedback text means
   * "Feedback", none means "Approved", and only the status is written.
   */
  function ReviewUserStoriesNode(state: State, feedback: string): (u: State)
    ensures u.Keys == {"user_stories_review_status"}
    ensures u["user_stories_review_status"] == Text("Feedback") <==> feedback != ""
    ensures u["user_stories_review_status"] == Text("Approved") <==> feedback == ""
  {
    if feedback != "" then map["user_stories_review_status" := Text("Feedback")]
    else map["user_stories_review_status" := Text("Approved")]
  }

  /**
   * `revise_user_stories`: stores the reviser's reply message (`revised`, represented by its
   * text; not a story list) and marks the stories revised; nothing else is written.
   */
  function ReviseUserStoriesNode(state: State, revised: string): (u: State)
    ensures u.Keys == {"user_stories", "user_stories_review_status"}
    ensures u["user_stories"] == Text(revised)
    ensures u["user_stories_review_status"] == Text("Revised")
  {
    map["user_stories" := Text(revised), "user_stories_review_status" := Text("Revised")]
  }

  /** `generate_code`: a placeholder that returns no update. */
  function GenerateCodeNode(state: State): (u: State)
    ensures u.Keys == {}
  {
    map[]
  }

  /**
   * `route_review_user_stories`: "Approved" and "Feedback" route to the label of the
   * same name; any other status (including the other nodes' "Pending Review" and
   * "Revised") yields no label.
   */
  function RouteReviewUserStories(state: State): (r: Option<Label>)
    requires "user_stories_review_status" in state
    ensures r.Some? <==> state["user_stories_review_status"] in {Text("Approved"), Text("Feedback")}
    ensures r.Some? ==> state["user_stories_review_status"] == Text(LabelText(r.value))
  {
    var status := state["user_stories_review_status"];
    if status == Text("Approved") then Some(Approved)
    else if status == Text("Feedback") then Some(Feedback)
    else None
  }

  // ---------------------------------------------------------------- node facts

  /** The router inverts the label text: every label's own status routes to it. */
  lemma RouteLabelText(state: State, l: Label)
    ensures RouteReviewUserStories(state["user_stories_review_status" := Text(LabelText(l))]) == Some(l)
  {
  }

  /** Whatever the state, the review's status leads the router to a label the conditional edge maps. */
  lemma ReviewIsAlwaysRouted(state: State, feedback: string)
    ensures var l := RouteReviewUserStories(Merge(state, ReviewUserStoriesNode(state, feedback)));
            l.Some? && l.value in Graph.branches[ReviewUserStories]
            && (l == Some(Feedback) <==> feedback != "")
  {
  }

  /** The statuses written by the generating and revising nodes are not routable: the router must follow the review. */
  lemma OtherStatusesAreNotRouted(state: State, generated: UserStories, revised: string)
    ensures RouteReviewUserStories(Merge(state, CreateUserStoriesNode(state, generated))) == None
    ensures RouteReviewUserStories(Merge(state, ReviseUserStoriesNode(state, revised))) == None
  {
  }

  /** The nodes leave the requirement as it was, and code generation leaves the whole state as it was. */
  lemma RequirementIsKept(state: State, generated: UserStories, feedback: string, revised: string)
    ensures var k := "requirement";
            && Merge(state, CreateUserStoriesNode(state, generated)).Keys == state.Keys + {"user_stories", "user_stories_review_status"}
            && (k in state ==> Merge(state, CreateUserStoriesNode(state, generated))[k] == state[k])
            && (k in state ==> Merge(state, ReviewUserStoriesNode(state, feedback))[k] == state[k])
            && (k in state ==> Merge(state, ReviseUserStoriesNode(state, revised))[k] == state[k])
    ensures Merge(state, GenerateCodeNode(state)) == state
  {
    MergeEmpty(state);
  }

  /** The review's decision depends on the feedback alone. */
  lemma ReviewIgnoresState(s1: State, s2: State, feedback: string)
    ensures ReviewUserStoriesNode(s1, feedback) == ReviewUserStoriesNode(s2, feedback)
  {
  }

  // ---------------------------------------------------------------- topology

  /** The transitions: START to generation to review; Approved to code generation to END; Feedback to revision and back to review. */
  lemma Transitions(v: Vertex<Node>, w: Vertex<Node>)
    ensures Edge(Graph, v, w) <==>
              || (v == Start && w == Node(CreateUserStories))
              || (v == Node(CreateUserStories) && w == Node(ReviewUserStories))
              || (v == Node(ReviewUserStories) && w == Node(GenerateCode))
              || (v == Node(ReviewUserStories) && w == Node(ReviseUserStories))
              || (v == Node(ReviseUserStories) && w == Node(ReviewUserStories))
              || (v == Node(GenerateCode) && w == End)
  {
    var routes := Graph.branches[ReviewUserStories];
    assert routes[Approved] == Node(GenerateCode) && routes[Feedback] == Node(ReviseUserStories);
    assert v == Node(ReviewUserStories) ==> (w in routes.Values <==> w == Node(GenerateCode) || w == Node(ReviseUserStories));
  }

  /** `k` revise rounds: one revision followed by a review, `k` times. */
  function Rounds(k: nat): (p: seq<Vertex<Node>>)
    ensures |p| == 2 * k
  {
    if k == 0 then [] else Rounds(k - 1) + [Node(ReviseUserStories), Node(ReviewUserStories)]
  }

  /** The run that generates, reviews, revises `k` times and is approved. */
  function ApprovedRun(k: nat): seq<Vertex<Node>> {
    [Start, Node(CreateUserStories), Node(ReviewUserStories)] + Rounds(k) + [Node(GenerateCode), End]
  }

  /** A path from START that stands at the review is generation, a first review and some revise rounds. */
  lemma {:induction false} PathsToReview(p: seq<Vertex<Node>>)
    requires IsPath(Graph, p) && |p| >= 1 && p[0] == Start && p[|p| - 1] == Node(ReviewUserStories)
    ensures |p| >= 3 && |p| % 2 == 1
    ensures p == [Start, Node(CreateUserStories), Node(ReviewUserStories)] + Rounds((|p| - 3) / 2)
  {
    var n := |p|;
    Transitions(p[n - 2], p[n - 1]);
    if p[n - 2] == Node(CreateUserStories) {
      Transitions(p[n - 3], p[n - 2]);
      if n > 3 {
        Transitions(p[n - 4], p[n - 3]);
      }
      assert p == [Start, Node(CreateUserStories), Node(ReviewUserStories)];
    } else {
      assert p[n - 2] == Node(ReviseUserStories);
      Transitions(p[n - 3], p[n - 2]);
      var q := p[..n - 2];
      assert IsPath(Graph, q);
      PathsToReview(q);
      assert p == q + [Node(ReviseUserStories), Node(ReviewUserStories)];
    }
  }

  /** Every path from START to END is the approved run after some number of revise rounds. */
  lemma PathsToEnd(p: seq<Vertex<Node>>)
    requires IsPath(Graph, p) && |p| >= 1 && p[0] == Start && p[|p| - 1] == End
    ensures |p| >= 5 && p == ApprovedRun((|p| - 5) / 2)
  {
    var n := |p|;
    Transitions(p[n - 2], p[n - 1]);
    Transitions(p[n - 3], p[n - 2]);
    var q := p[..n - 2];
    assert IsPath(Graph, q);
    PathsToReview(q);
    assert p == q + [Node(GenerateCode), End];
  }

  /** Conversely, the approved run is a path for any number of revise rounds. */
  lemma {:induction false} ApprovedRunIsPath(k: nat)
    ensures IsPath(Graph, ApprovedRun(k))
  {
    Transitions(Node(ReviewUserStories), Node(GenerateCode));
    Transitions(Node(GenerateCode), End);
    ReviewRunIsPath(k);
    var p := ApprovedRun(k);
    var q := [Start, Node(CreateUserStories), Node(ReviewUserStories)] + Rounds(k);
    assert p == q + [Node(GenerateCode), End];
    assert q[|q| - 1] == Node(ReviewUserStories) by {
      if k > 0 {
        assert q == [Start, Node(CreateUserStories), Node(ReviewUserStories)] + Rounds(k - 1)
                    + [Node(ReviseUserStories), Node(ReviewUserStories)];
      }
    }
  }

  /** The part of a run up to the review after `k` revise rounds is a path ending at the review. */
  lemma {:induction false} ReviewRunIsPath(k: nat)
    ensures IsPath(Graph, [Start, Node(CreateUserStories), Node(ReviewUserStories)] + Rounds(k))
  {
    Transitions(Start, Node(CreateUserStories));
    Transitions(Node(CreateUserStories), Node(ReviewUserStories));
    if k > 0 {
      ReviewRunIsPath(k - 1);
      Transitions(Node(ReviewUserStories), Node(ReviseUserStories));
      Transitions(Node(ReviseUserStories), Node(ReviewUserStories));
      var q := [Start, Node(CreateUserStories), Node(ReviewUserStories)] + Rounds(k - 1);
      assert q[|q| - 1] == Node(ReviewUserStories) by {
        if k > 1 {
          assert q == [Start, Node(CreateUserStories), Node(ReviewUserStories)] + Rounds(k - 2)
                      + [Node(ReviseUserStories), Node(ReviewUserStories)];
        }
      }
      assert [Start, Node(CreateUserStories), Node(ReviewUserStories)] + Rounds(k)
             == q + [Node(ReviseUserStories), Node(ReviewUserStories)];
    }
  }

  // ---------------------------------------------------------------- the review cycle

  /**
   * The vertex after `v` when every review reads the same `feedback`: the review's
   * conditional edge follows the router's label for the status the review writes.
   */
  function Step(v: Vertex<Node>, feedback: string): (r: Option<Vertex<Node>>)
    ensures r.Some? ==> Edge(Graph, v, r.value)
  {
    var chosen := if v == Node(ReviewUserStories)
                  then RouteReviewUserStories(ReviewUserStoriesNode(map[], feedback))
                  else None;
    Next(Graph, v, chosen)
  }

  /** Where the run stands after `k` steps from `v`, or nothing once it has ended. */
  function Walk(v: Vertex<Node>, feedback: string, k: nat): Option<Vertex<Node>>
    decreases k
  {
    if k == 0 then Some(v)
    else match Step(v, feedback)
      case None => None
      case Some(w) => Walk(w, feedback, k - 1)
  }

  /**
   * With fixed non-empty feedback the run never leaves the review-revise cycle: it
   * never reaches code generation or END, however many steps it takes.
   */
  lemma {:induction false} FeedbackCyclesForever(v: Vertex<Node>, feedback: string, k: nat)
    requires feedback != ""
    requires v == Node(ReviewUserStories) || v == Node(ReviseUserStories)
    ensures Walk(v, feedback, k) == Some(Node(ReviewUserStories)) || Walk(v, feedback, k) == Some(Node(ReviseUserStories))
    decreases k
  {
    if k > 0 {
      var w := if v == Node(ReviewUserStories) then Node(ReviseUserStories) else Node(ReviewUserStories);
      FeedbackSteps(feedback);
      FeedbackCyclesForever(w, feedback, k - 1);
    }
  }

  /** With non-empty feedback the review steps to the revision, and the revision back to the review. */
  lemma FeedbackSteps(feedback: string)
    requires feedback != ""
    ensures Step(Node(ReviewUserStories), feedback) == Some(Node(ReviseUserStories))
    ensures Step(Node(ReviseUserStories), feedback) == Some(Node(ReviewUserStories))
  {
    assert RouteReviewUserStories(ReviewUserStoriesNode(map[], feedback)) == Some(Feedback);
  }

  /** With empty feedback the review leads to code generation and then END. */
  lemma EmptyFeedbackEnds()
    ensures Walk(Node(ReviewUserStories), "", 1) == Some(Node(GenerateCode))
    ensures Walk(Node(ReviewUserStories), "", 2) == Some(End)
    ensures Walk(Node(ReviewUserStories), "", 3) == None
  {
    assert Step(Node(ReviewUserStories), "") == Some(Node(GenerateCode));
    assert Step(Node(GenerateCode), "") == Some(End);
    assert Step(End, "") == None;
  }

  /** The declared graph passes the compile-time checks. */
  lemma GraphIsWellFormed()
    ensures WellFormed(Graph)
  {
    var starts := set e | e in Graph.edges && e.0 == Start;
    assert starts == {(Start, Node(CreateUserStories))};
  }
}
