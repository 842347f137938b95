/** The older calculate-score server function. It reduces the same way as
    the current one, but a failed primary-user lookup silently yields no
    primary users, a store with no primary user still gets a vote-only score
    written, and a body that is not JSON escapes the handler's error
    handling. */
module CalculateScoreLegacy {
  import opened Common
  import opened Store
  import opened Aggregation
  import CalculateScore

  /** The request body: not JSON at all, the JSON literal `null`, or a
      JSON value whose `property_id` is absent or a string. The request
      method is not inspected. */
  datatype Body = Unparsable | NullBody | Json(propertyId: Option<string>)

  datatype Response =
    | Scored(combinedScore: real) // 200
    | BadRequest                  // 400, "Property ID is required"
    | Failed                      // 500, no combined_score in the body

  function Status(r: Response): int
  {
    match r
    case Scored(_) => 200
    case BadRequest => 400
    case Failed => 500
  }

  datatype Faults = Faults(users: bool, ratings: bool, feedback: bool, upsert: bool)

  datatype Outcome = Outcome(response: Response, scores: map<string, real>)

  /** The ids the ratings query is restricted to: the primary users' ids, or
      none at all when that lookup fails. */
  function PrimaryIdsOrNone(users: seq<UserRow>, usersFail: bool): seq<string>
  {
    if usersFail then [] else PrimaryIds(users)
  }

  function Handle(body: Body, users: seq<UserRow>, ratings: seq<RatingRow>, feedback: seq<FeedbackRow>,
                  scores: map<string, real>, faults: Faults): (o: Outcome)
    ensures !o.response.Scored? ==> o.scores == scores
    ensures o.response.Scored? ==>
              body.Json? && body.propertyId.Some? && body.propertyId.value != ""
              && 0.0 <= o.response.combinedScore <= 100.0
              && o.scores == scores[body.propertyId.value := o.response.combinedScore]
  {
    // reading and destructuring the body happen before the handler's try
    // block; the failure propagates to the server runtime, which answers 500
    if body.Unparsable? || body.NullBody? then Outcome(Failed, scores)
    else if body.propertyId.None? || body.propertyId.value == "" then Outcome(BadRequest, scores)
    else
      var pid := body.propertyId.value;
      var ids := PrimaryIdsOrNone(users, faults.users);
      if faults.ratings || faults.feedback then Outcome(Failed, scores)
      else
        var combined := CombinedScore(RatingsFor(ratings, pid, ids), FeedbackFor(feedback, pid));
        if faults.upsert then Outcome(Failed, scores)
        else Outcome(Scored(combined), scores[pid := combined])
  }

  /** A body that is not JSON, or is `null`, fails outside the handler's
      error handling: 500, and nothing is written. */
  lemma BadBodyIs500(body: Body, users: seq<UserRow>, ratings: seq<RatingRow>,
                     feedback: seq<FeedbackRow>, scores: map<string, real>, faults: Faults)
    requires body.Unparsable? || body.NullBody?
    ensures Handle(body, users, ratings, feedback, scores, faults) == Outcome(Failed, scores)
  {
  }

  /** A parsed body without a (truthy) `property_id` is answered 400 and
      nothing is written. */
  lemma MissingPropertyId(id: Option<string>, users: seq<UserRow>, ratings: seq<RatingRow>,
                          feedback: seq<FeedbackRow>, scores: map<string, real>, faults: Faults)
    requires id.None? || id.value == ""
    ensures Handle(Json(id), users, ratings, feedback, scores, faults) == Outcome(BadRequest, scores)
  {
  }

  /** When the primary-user lookup fails, or there is no primary user, no
      rating is counted: the score is the clamped vote balance, and it is
      still written. */
  lemma VoteOnlyScore(pid: string, users: seq<UserRow>, ratings: seq<RatingRow>,
                      feedback: seq<FeedbackRow>, scores: map<string, real>, faults: Faults)
    requires pid != "" && !faults.ratings && !faults.feedback && !faults.upsert
    requires faults.users || forall u :: u in users ==> u.role != Primary
    ensures var votes := FeedbackFor(feedback, pid);
            var s := Clamp((CountVotes(votes, "up") - CountVotes(votes, "down")) as real);
            Handle(Json(Some(pid)), users, ratings, feedback, scores, faults) == Outcome(Scored(s), scores[pid := s])
  {
    if !faults.users {
      NoPrimaryIds(users);
    }
    FilterNone(ratings, RatingSelector(pid, []));
    VotesOnly(FeedbackFor(feedback, pid));
  }

  /** A failed ratings, feedback or score write gives 500 with no score in
      the answer, and the score table is unchanged. */
  lemma StoreErrorIs500(pid: string, users: seq<UserRow>, ratings: seq<RatingRow>,
                        feedback: seq<FeedbackRow>, scores: map<string, real>, faults: Faults)
    requires pid != "" && (faults.ratings || faults.feedback || faults.upsert)
    ensures Handle(Json(Some(pid)), users, ratings, feedback, scores, faults) == Outcome(Failed, scores)
  {
  }

  /** Where the current version answers, the two versions agree unless there
      is no primary user: then the current one writes nothing and reports 0,
      while this one writes the vote-only score. */
  lemma AgreesWithCurrentVersion(pid: string, users: seq<UserRow>, ratings: seq<RatingRow>,
                                 feedback: seq<FeedbackRow>, scores: map<string, real>)
    requires pid != "" && |PrimaryIds(users)| > 0
    ensures var legacy := Handle(Json(Some(pid)), users, ratings, feedback, scores, Faults(false, false, false, false));
            var current := CalculateScore.Handle(CalculateScore.Request(CalculateScore.Post, CalculateScore.Json(Some(pid))),
                                                 users, ratings, feedback, scores,
                                                 CalculateScore.Faults(false, false, false, false));
            current.response.Scored? && legacy.response.Scored?
            && legacy.response.combinedScore == current.response.combinedScore
            && legacy.scores == current.scores
  {
  }
}
