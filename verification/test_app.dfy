/**
 * The form-based variant of the answer-review workflow (test.py). Its graph is the
 * one of app.py; its nodes also keep the answer, the review status, the feedback
 * and the document in the UI session, which outlives a single graph run.
 */
module TestApp {
  import opened Wrappers
  import opened GraphState
  import opened StateGraph
  import App

  /** The keys of the workflow's state. */
  const Keys := {"prompt", "content", "documents", "codes", "user_review_status", "user_feedback"}

  /** The options of the review radio button, in display order: app.py's. */
  const ReviewOptions := App.ReviewOptions

  /** The declared graph. */
  const Graph: Topology<App.Node, App.Label> := Topology(
    [App.UserRequirement, App.UserReview, App.DesignDocument, App.GenerateCode],
    [ (Start, Node(App.UserRequirement)),
      (Node(App.UserRequirement), Node(App.UserReview)),
      (Node(App.GenerateCode), End) ],
    map[App.UserReview := map[App.Accepted := Node(App.GenerateCode), App.Feedback := Node(App.DesignDocument)]])

  /** The graph is app.py's, so every fact proved about that one holds here. */
  lemma SameGraphAsApp()
    ensures Graph == App.Graph
  {
  }

  /** Every path from START to END is app.py's accepted run; the design document is a dead end. */
  lemma OnlyAcceptedReachesEnd(p: seq<Vertex<App.Node>>)
    requires IsPath(Graph, p) && |p| >= 1 && p[0] == Start && p[|p| - 1] == End
    ensures p == App.AcceptedRun
  {
    SameGraphAsApp();
    App.OnlyAcceptedReachesEnd(p);
  }

  /**
   * What the review node does with the form. On "Submit Review" it stores the choice
   * and asks the UI to rerun the script, which abandons the node before it returns;
   * otherwise it returns the session's status and feedback as its update.
   */
  datatype ReviewOutcome = Rerun | Returned(update: State)

  /** `route_user_review`: the same routing as app.py's router. */
  function RouteUserReview(state: State): (r: Option<App.Label>)
    requires "user_review_status" in state
    ensures r == App.RouteUserReview(state)
  {
    var status := state["user_review_status"];
    if status == Text("accepted") then Some(App.Accepted)
    else if status == Text("feedback") then Some(App.Feedback)
    else None
  }

  /** `generate_code`: the same update as app.py's node. */
  function GenerateCodeNode(state: State): (u: State)
    ensures u == App.GenerateCodeNode(state)
  {
    map["codes" := Text("Code generated.")]
  }

  /** The UI session fields the nodes read and write. */
  class Session {
    var content: string
    var userReviewStatus: Option<string>
    var userFeedback: string
    var documents: Option<string>

    /** The status is unset or a radio option, and feedback is kept only under the "feedback" status. */
    ghost predicate Valid()
      reads this
    {
      && (userReviewStatus.Some? ==> userReviewStatus.value in ReviewOptions)
      && (userFeedback != "" ==> userReviewStatus == Some("feedback"))
    }

    /** The first run's session: no content, no status, no feedback; `documents` is not initialised. */
    constructor ()
      ensures Valid()
      ensures content == "" && userReviewStatus == None && userFeedback == "" && documents == None
    {
      content, userReviewStatus, userFeedback, documents := "", None, "", None;
    }

    /** `get_user_requirement`: keeps the model's `answer` in the session and writes it as the content. */
    method GetUserRequirement(state: State, answer: string) returns (u: State)
      requires Valid()
      modifies this
      ensures Valid()
      ensures content == answer
      ensures userReviewStatus == old(userReviewStatus) && userFeedback == old(userFeedback) && documents == old(documents)
      ensures u.Keys == {"content"} && u.Keys <= Keys && u["content"] == Text(answer)
    {
      content := answer;
      u := map["content" := Text(answer)];
    }

    /**
     * `review_by_user`: an unset status defaults to "feedback". `picked` is the radio option
     * the user selected and `typed` the feedback box's text (shown only for "feedback").
     * On submit the choice is stored, the feedback only under "feedback" and cleared
     * otherwise, and the script reruns; without submit the node returns exactly the
     * status and the feedback, and the status is one the router maps.
     */
    method ReviewByUser(state: State, picked: nat, typed: string, submitted: bool) returns (r: ReviewOutcome)
      requires Valid()
      requires picked < |ReviewOptions|
      modifies this
      ensures Valid()
      ensures content == old(content) && documents == old(documents)
      ensures submitted ==> && r == Rerun
                            && userReviewStatus == Some(ReviewOptions[picked])
                            && userFeedback == (if ReviewOptions[picked] == "feedback" then typed else "")
      ensures !submitted ==> && userReviewStatus == Some(old(userReviewStatus).GetOr("feedback"))
                             && userFeedback == old(userFeedback)
                             && r == Returned(map["user_review_status" := Text(userReviewStatus.value),
                                                  "user_feedback" := Text(userFeedback)])
      ensures r.Returned? ==> && r.update.Keys == {"user_review_status", "user_feedback"}
                              && r.update.Keys <= Keys
                              && RouteUserReview(r.update).Some?
    {
      if userReviewStatus == None {
        userReviewStatus := Some("feedback");
      }
      var choice := ReviewOptions[picked];
      var feedback := userFeedback;
      if choice == "feedback" {
        feedback := typed;
      }
      if submitted {
        userReviewStatus := Some(choice);
        userFeedback := if choice == "feedback" then feedback else "";
        return Rerun;
      }
      r := Returned(map["user_review_status" := Text(userReviewStatus.value), "user_feedback" := Text(userFeedback)]);
    }

    /**
     * `create_design_document`: when the state's feedback is non-empty the document is
     * created "based on feedback" followed by the session's feedback; otherwise it is
     * "Document created.", which is also kept in the session.
     */
    method CreateDesignDocument(state: State) returns (u: State)
      requires Valid()
      requires "user_feedback" in state
      modifies this
      ensures Valid()
      ensures content == old(content) && userReviewStatus == old(userReviewStatus) && userFeedback == old(userFeedback)
      ensures u.Keys == {"documents"} && u.Keys <= Keys
      ensures Truthy(state["user_feedback"]) ==>
                u["documents"] == Text("Document created based on feedback: " + userFeedback) && documents == old(documents)
      ensures !Truthy(state["user_feedback"]) ==>
                u["documents"] == Text("Document created.") && documents == Some("Document created.")
    {
      if Truthy(state["user_feedback"]) {
        return map["documents" := Text("Document created based on feedback: " + userFeedback)];
      } else {
        documents := Some("Document created.");
      }
      u := map["documents" := Text("Document created.")];
    }
  }
}
