/** The calculate-score server function (the current version): validate the
    request, collect the primary users' ratings of the property and all its
    votes, reduce them to one combined score and upsert it into
    `property_scores`. */
module CalculateScore {
  import opened Common
  import opened Store
  import opened Aggregation

  datatype HttpMethod = Options | Post

  /** The request body: not JSON at all, the JSON literal `null` (which
      cannot be destructured), or a JSON value whose `property_id` is absent
      or a string. */
  datatype Body = Unparsable | NullBody | Json(propertyId: Option<string>)

  datatype Request = Request(httpMethod: HttpMethod, body: Body)

  datatype Response =
    | Preflight                                                      // 200 "ok"
    | Scored(combinedScore: real, ratingsCount: nat, feedbackCount: nat) // 200
    | NoPrimaryUsers                                                 // 200, combined_score 0
    | BadRequest(error: string)                                      // 400
    | Failed                                                         // 500

  function Status(r: Response): int
  {
    match r
    case Preflight => 200
    case Scored(_, _, _) => 200
    case NoPrimaryUsers => 200
    case BadRequest(_) => 400
    case Failed => 500
  }

  /** The `combined_score` field of the response body, when there is one. */
  function ReportedScore(r: Response): Option<real>
  {
    match r
    case Scored(s, _, _) => Some(s)
    case NoPrimaryUsers => Some(0.0)
    case _ => None
  }

  /** Which store calls fail. */
  datatype Faults = Faults(users: bool, ratings: bool, feedback: bool, upsert: bool)

  /** The response and the `property_scores` table after the call. */
  datatype Outcome = Outcome(response: Response, scores: map<string, real>)

  /** A missing, null or empty `property_id` is falsy. */
  predicate MissingId(id: Option<string>)
  {
    id.None? || id.value == ""
  }

  /** The handler, from the request and the store tables it reads. */
  function Handle(req: Request, users: seq<UserRow>, ratings: seq<RatingRow>, feedback: seq<FeedbackRow>,
                  scores: map<string, real>, faults: Faults): (o: Outcome)
    ensures !o.response.Scored? ==> o.scores == scores
    ensures o.response.Scored? ==>
              req.body.Json? && !MissingId(req.body.propertyId)
              && 0.0 <= o.response.combinedScore <= 100.0
              && o.scores == scores[req.body.propertyId.value := o.response.combinedScore]
  {
    if req.httpMethod == Options then Outcome(Preflight, scores)
    else if req.body.Unparsable? then Outcome(BadRequest("Invalid JSON in request body"), scores)
    else if req.body.NullBody? then Outcome(Failed, scores)
    else if MissingId(req.body.propertyId) then Outcome(BadRequest("Property ID is required"), scores)
    else
      var pid := req.body.propertyId.value;
      if faults.users then Outcome(Failed, scores)
      else
        var ids := PrimaryIds(users);
        if |ids| == 0 then Outcome(NoPrimaryUsers, scores)
        else if faults.ratings || faults.feedback then Outcome(Failed, scores)
        else
          var rows := RatingsFor(ratings, pid, ids);
          var votes := FeedbackFor(feedback, pid);
          var combined := CombinedScore(rows, votes);
          if faults.upsert then Outcome(Failed, scores)
          else Outcome(Scored(combined, |rows|, |votes|), scores[pid := combined])
  }

  /** A body that is not JSON is answered 400 whatever the store holds and
      whichever store call would fail: the store is not consulted. */
  lemma UnparsableBody(users: seq<UserRow>, ratings: seq<RatingRow>, feedback: seq<FeedbackRow>,
                       scores: map<string, real>, faults: Faults,
                       users': seq<UserRow>, ratings': seq<RatingRow>, feedback': seq<FeedbackRow>, faults': Faults)
    ensures var o := Handle(Request(Post, Unparsable), users, ratings, feedback, scores, faults);
            Status(o.response) == 400 && o.scores == scores
            && o == Handle(Request(Post, Unparsable), users', ratings', feedback', scores, faults')
  {
  }

  /** A `null` body parses but cannot be destructured: the error reaches
      the handler's catch-all and is answered 500, again without consulting
      the store. */
  lemma NullBodyIs500(users: seq<UserRow>, ratings: seq<RatingRow>, feedback: seq<FeedbackRow>,
                      scores: map<string, real>, faults: Faults)
    ensures var o := Handle(Request(Post, NullBody), users, ratings, feedback, scores, faults);
            Status(o.response) == 500 && o.scores == scores
  {
  }

  /** A missing or falsy `property_id` is answered 400 and writes no score. */
  lemma MissingPropertyId(id: Option<string>, users: seq<UserRow>, ratings: seq<RatingRow>,
                          feedback: seq<FeedbackRow>, scores: map<string, real>, faults: Faults)
    requires MissingId(id)
    ensures var o := Handle(Request(Post, Json(id)), users, ratings, feedback, scores, faults);
            o.response == BadRequest("Property ID is required") && o.scores == scores
  {
  }

  /** With no primary user the answer is 200 with a combined score of 0 and
      nothing is written, whatever the votes are. */
  lemma NoPrimaryUsersScoresZero(pid: string, users: seq<UserRow>, ratings: seq<RatingRow>,
                                 feedback: seq<FeedbackRow>, scores: map<string, real>, faults: Faults)
    requires pid != "" && !faults.users
    requires forall u :: u in users ==> u.role != Primary
    ensures var o := Handle(Request(Post, Json(Some(pid))), users, ratings, feedback, scores, faults);
            Status(o.response) == 200 && ReportedScore(o.response) == Some(0.0) && o.scores == scores
  {
    NoPrimaryIds(users);
  }

  /** On success the score written (under the property's id) is the one
      returned, with the numbers of rows and votes it was computed from, and
      no other property's score changes. */
  lemma SuccessfulRun(pid: string, users: seq<UserRow>, ratings: seq<RatingRow>,
                      feedback: seq<FeedbackRow>, scores: map<string, real>)
    requires pid != "" && |PrimaryIds(users)| > 0
    ensures var o := Handle(Request(Post, Json(Some(pid))), users, ratings, feedback, scores, Faults(false, false, false, false));
            o.response == Scored(o.scores[pid], |RatingsFor(ratings, pid, PrimaryIds(users))|, |FeedbackFor(feedback, pid)|)
            && o.scores.Keys == scores.Keys + {pid}
            && (forall k :: k in scores && k != pid ==> o.scores[k] == scores[k])
  {
  }

  /** The score written is the clamped sum of half of every score of exactly
      the property's rating rows that belong to primary users, plus the up
      votes, minus the down votes. */
  lemma SuccessfulScore(pid: string, users: seq<UserRow>, ratings: seq<RatingRow>,
                        feedback: seq<FeedbackRow>, scores: map<string, real>)
    requires pid != "" && |PrimaryIds(users)| > 0
    ensures var rows := RatingsFor(ratings, pid, PrimaryIds(users));
            var votes := FeedbackFor(feedback, pid);
            Handle(Request(Post, Json(Some(pid))), users, ratings, feedback, scores, Faults(false, false, false, false)).scores[pid]
              == Clamp(SumScores(rows) as real / 2.0 + (CountVotes(votes, "up") - CountVotes(votes, "down")) as real)
  {
    var rows := RatingsFor(ratings, pid, PrimaryIds(users));
    var votes := FeedbackFor(feedback, pid);
    var o := Handle(Request(Post, Json(Some(pid))), users, ratings, feedback, scores, Faults(false, false, false, false));
    var combined := CombinedScore(rows, votes);
    CombinedIsClampedBalance(rows, votes);
    assert o == Outcome(Scored(combined, |rows|, |votes|), scores[pid := combined]);
  }

  /** Any failing store call gives 500, and the score table is unchanged. */
  lemma StoreErrorIs500(pid: string, users: seq<UserRow>, ratings: seq<RatingRow>,
                        feedback: seq<FeedbackRow>, scores: map<string, real>, faults: Faults)
    requires pid != ""
    requires faults.users || (|PrimaryIds(users)| > 0 && (faults.ratings || faults.feedback || faults.upsert))
    ensures var o := Handle(Request(Post, Json(Some(pid))), users, ratings, feedback, scores, faults);
            o.response == Failed && Status(o.response) == 500 && o.scores == scores
  {
  }

  /** Re-running with unchanged inputs stores and returns the same score. */
  lemma Idempotent(req: Request, users: seq<UserRow>, ratings: seq<RatingRow>,
                   feedback: seq<FeedbackRow>, scores: map<string, real>, faults: Faults)
    ensures var o := Handle(req, users, ratings, feedback, scores, faults);
            var o2 := Handle(req, users, ratings, feedback, o.scores, faults);
            o2.response == o.response && o2.scores == o.scores
  {
  }

  /** Rating rows of other properties or of non-primary users do not change
      the outcome. */
  lemma IrrelevantRatingsIgnored(pid: string, users: seq<UserRow>, ratings: seq<RatingRow>, extra: seq<RatingRow>,
                                 feedback: seq<FeedbackRow>, scores: map<string, real>, faults: Faults)
    requires forall x :: x in extra ==> x.propertyId != pid || UserRow(x.userId, Primary) !in users
    ensures Handle(Request(Post, Json(Some(pid))), users, ratings + extra, feedback, scores, faults)
         == Handle(Request(Post, Json(Some(pid))), users, ratings, feedback, scores, faults)
  {
    RatingsIgnoreExtra(ratings, extra, pid, users);
  }

  lemma RatingsIgnoreExtra(ratings: seq<RatingRow>, extra: seq<RatingRow>, pid: string, users: seq<UserRow>)
    requires forall x :: x in extra ==> x.propertyId != pid || UserRow(x.userId, Primary) !in users
    ensures RatingsFor(ratings + extra, pid, PrimaryIds(users)) == RatingsFor(ratings, pid, PrimaryIds(users))
  {
    var keep := RatingSelector(pid, PrimaryIds(users));
    FilterAppend(ratings, extra, keep);
    FilterNone(extra, keep);
    assert Filter(ratings, keep) + [] == Filter(ratings, keep);
  }
}
