/**
 * The answer-review workflow of app.py: answer the user's query, let the user
 * accept the answer or ask for changes, then either generate code or create a
 * design document. The model's answer and the user's radio choice are parameters.
 */
module App {
  import opened Wrappers
  import opened GraphState
  import opened StateGraph

  /** The keys of the workflow's state. */
  const Keys := {"prompt", "content", "documents", "codes", "user_review_status"}

  datatype Node = UserRequirement | UserReview | DesignDocument | GenerateCode

  /** The labels of the review node's conditional edge. */
  datatype Label = Accepted | Feedback

  /** The options of the review radio button, in display order. */
  const ReviewOptions := ["accepted", "feedback"]

  /** The declared graph. */
  const Graph: Topology<Node, Label> := Topology(
    [UserRequirement, UserReview, DesignDocument, GenerateCode],
    [ (Start, Node(UserRequirement)),
      (Node(UserRequirement), Node(UserReview)),
      (Node(GenerateCode), End) ],
    map[UserReview := map[Accepted := Node(GenerateCode), Feedback := Node(DesignDocument)]])

  /** The review status (a radio option) that selects a label. */
  function OptionOf(l: Label): string {
    match l
    case Accepted => "accepted"
    case Feedback => "feedback"
  }

  // ---------------------------------------------------------------- nodes

  /** `get_user_requirement`: stores the model's `answer` as the content; nothing else is written. */
  function GetUserRequirement(state: State, answer: string): (u: State)
    ensures u.Keys == {"content"} && u.Keys <= Keys
    ensures u["content"] == Text(answer)
  {
    map["content" := Text(answer)]
  }

  /** `review_by_user`: stores the radio option the user selected as the review status; nothing else is written. */
  function ReviewByUser(state: State, selected: nat): (u: State)
    requires selected < |ReviewOptions|
    ensures u.Keys == {"user_review_status"} && u.Keys <= Keys
    ensures u["user_review_status"] in {Text("accepted"), Text("feedback")}
  {
    map["user_review_status" := Text(ReviewOptions[selected])]
  }

  /** `create_design_document`: records that the document was created; nothing else is written. */
  function CreateDesignDocument(state: State): (u: State)
    ensures u.Keys == {"documents"} && u.Keys <= Keys
    ensures u["documents"] == Text("Document created.")
  {
    map["documents" := Text("Document created.")]
  }

  /** `generate_code`: records that code was generated; nothing else is written. */
  function GenerateCodeNode(state: State): (u: State)
    ensures u.Keys == {"codes"} && u.Keys <= Keys
    ensures u["codes"] == Text("Code generated.")
  {
    map["codes" := Text("Code generated.")]
  }

  /**
   * `route_user_review`: "accepted" routes to Accepted and "feedback" to Feedback;
   * any other status yields no label.
   */
  function RouteUserReview(state: State): (r: Option<Label>)
    requires "user_review_status" in state
    ensures r.Some? <==> state["user_review_status"] in {Text("accepted"), Text("feedback")}
    ensures r.Some? ==> state["user_review_status"] == Text(OptionOf(r.value))
  {
    var status := state["user_review_status"];
    if status == Text("accepted") then Some(Accepted)
    else if status == Text("feedback") then Some(Feedback)
    else None
  }

  // ---------------------------------------------------------------- node facts

  /** The router inverts `OptionOf`: each label's radio option routes to it. */
  lemma RouteOptionOf(state: State, l: Label)
    ensures RouteUserReview(state["user_review_status" := Text(OptionOf(l))]) == Some(l)
  {
  }

  /** Whatever the user selects, the router receives a status it maps to a label of the conditional edge. */
  lemma ReviewIsAlwaysRouted(state: State, selected: nat)
    requires selected < |ReviewOptions|
    ensures var l := RouteUserReview(Merge(state, ReviewByUser(state, selected)));
            l.Some? && l.value in Graph.branches[UserReview] && OptionOf(l.value) == ReviewOptions[selected]
  {
  }

  /**
   * An accepted run from the query `q` ends with the query, the answer, the status
   * "accepted" and the generated-code marker, and no design document.
   */
  lemma AcceptedRunState(q: string, answer: string)
    ensures var s1 := Merge(map["prompt" := Text(q)], GetUserRequirement(map["prompt" := Text(q)], answer));
            var s2 := Merge(s1, ReviewByUser(s1, 0));
            var s3 := Merge(s2, GenerateCodeNode(s2));
            && RouteUserReview(s2) == Some(Accepted)
            && s3 == map["prompt" := Text(q), "content" := Text(answer),
                         "user_review_status" := Text("accepted"), "codes" := Text("Code generated.")]
  {
  }

  // ---------------------------------------------------------------- topology

  /** The transitions: START to answering to review; Accepted to code generation to END; Feedback to the design document. */
  lemma Transitions(v: Vertex<Node>, w: Vertex<Node>)
    ensures Edge(Graph, v, w) <==>
              || (v == Start && w == Node(UserRequirement))
              || (v == Node(UserRequirement) && w == Node(UserReview))
              || (v == Node(UserReview) && w == Node(GenerateCode))
              || (v == Node(UserReview) && w == Node(DesignDocument))
              || (v == Node(GenerateCode) && w == End)
  {
    var routes := Graph.branches[UserReview];
    assert routes[Accepted] == Node(GenerateCode) && routes[Feedback] == Node(DesignDocument);
    assert v == Node(UserReview) ==> (w in routes.Values <==> w == Node(GenerateCode) || w == Node(DesignDocument));
  }

  /** The run whose review is accepted. */
  const AcceptedRun := [Start, Node(UserRequirement), Node(UserReview), Node(GenerateCode), End]

  /** The run whose review asks for changes; it stops at the design document. */
  const FeedbackRun := [Start, Node(UserRequirement), Node(UserReview), Node(DesignDocument)]

  /** Every path from START follows one of the two runs. */
  lemma {:induction false} PathsFromStart(p: seq<Vertex<Node>>)
    requires IsPath(Graph, p) && |p| >= 1 && p[0] == Start
    ensures p <= AcceptedRun || p <= FeedbackRun
  {
    var n := |p|;
    if n > 1 {
      var q := p[..n - 1];
      assert IsPath(Graph, q);
      PathsFromStart(q);
      Transitions(p[n - 2], p[n - 1]);
      assert p == q + [p[n - 1]];
    }
  }

  /** No edge leaves the design document, so only the Accepted branch reaches END. */
  lemma OnlyAcceptedReachesEnd(p: seq<Vertex<Node>>)
    requires IsPath(Graph, p) && |p| >= 1 && p[0] == Start && p[|p| - 1] == End
    ensures p == AcceptedRun
    ensures Node(DesignDocument) !in p
  {
    PathsFromStart(p);
  }

  /** Both runs are paths. */
  lemma RunsArePaths()
    ensures IsPath(Graph, AcceptedRun) && IsPath(Graph, FeedbackRun)
  {
    Transitions(Start, Node(UserRequirement));
    Transitions(Node(UserRequirement), Node(UserReview));
    Transitions(Node(UserReview), Node(GenerateCode));
    Transitions(Node(UserReview), Node(DesignDocument));
    Transitions(Node(GenerateCode), End);
  }

  /** The declared graph passes the compile-time checks. */
  lemma GraphIsWellFormed()
    ensures WellFormed(Graph)
  {
    var starts := set e | e in Graph.edges && e.0 == Start;
    assert starts == {(Start, Node(UserRequirement))};
  }
}
