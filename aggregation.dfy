/** The score reduction shared by both versions of the calculate-score
    function: half of every primary rating, plus up votes, minus down votes,
    clamped to [0, 100]. */
module Aggregation {
  import opened Common
  import opened Store

  const MaxCombined: real := 100.0

  /** `ratings.reduce((sum, r) => sum + r.score * 0.5, 0)`. */
  function PrimaryComponent(rows: seq<RatingRow>): real
  {
    if rows == [] then 0.0 else PrimaryComponent(rows[..|rows| - 1]) + rows[|rows| - 1].score as real * 0.5
  }

  /** The value one stored vote adds: +1 for "up", -1 for "down", 0 otherwise. */
  function VoteValue(vote: string): int
  {
    if vote == "up" then 1 else if vote == "down" then -1 else 0
  }

  /** `feedback.reduce((sum, f) => sum + VoteValue(f.vote), 0)`. */
  function FeedbackComponent(votes: seq<FeedbackRow>): int
  {
    if votes == [] then 0 else FeedbackComponent(votes[..|votes| - 1]) + VoteValue(votes[|votes| - 1].vote)
  }

  function CountVotes(votes: seq<FeedbackRow>, vote: string): nat
  {
    |Filter(votes, (f: FeedbackRow) => f.vote == vote)|
  }

  /** `Math.min(Math.max(x, 0), 100)`. */
  function Clamp(x: real): (r: real)
    ensures 0.0 <= r <= MaxCombined
    ensures 0.0 <= x <= MaxCombined ==> r == x
    ensures x < 0.0 ==> r == 0.0
    ensures x > MaxCombined ==> r == MaxCombined
  {
    if x < 0.0 then 0.0 else if x > MaxCombined then MaxCombined else x
  }

  function CombinedScore(rows: seq<RatingRow>, votes: seq<FeedbackRow>): real
  {
    Clamp(PrimaryComponent(rows) + FeedbackComponent(votes) as real)
  }

  /** The primary component is the sum of all scores, halved. */
  lemma {:induction false} PrimaryIsHalfTheSum(rows: seq<RatingRow>)
    ensures PrimaryComponent(rows) == SumScores(rows) as real / 2.0
  {
    if rows != [] {
      PrimaryIsHalfTheSum(rows[..|rows| - 1]);
      SumScoresSnoc(rows[..|rows| - 1], rows[|rows| - 1]);
      assert rows[..|rows| - 1] + [rows[|rows| - 1]] == rows;
    }
  }

  /** The plain sum of the scores, added from the front. */
  function SumScores(rows: seq<RatingRow>): int
  {
    if rows == [] then 0 else rows[0].score + SumScores(rows[1..])
  }

  lemma {:induction false} SumScoresSnoc(rows: seq<RatingRow>, x: RatingRow)
    ensures SumScores(rows + [x]) == SumScores(rows) + x.score
  {
    if rows != [] {
      SumScoresSnoc(rows[1..], x);
      assert (rows + [x])[1..] == rows[1..] + [x];
    }
  }

  /** The feedback component is the number of "up" votes minus the number of
      "down" votes; every other vote value counts 0. */
  lemma {:induction false} FeedbackIsUpMinusDown(votes: seq<FeedbackRow>)
    ensures FeedbackComponent(votes) == CountVotes(votes, "up") - CountVotes(votes, "down")
  {
    if votes != [] {
      var init, last := votes[..|votes| - 1], votes[|votes| - 1];
      FeedbackIsUpMinusDown(init);
      assert votes == init + [last];
      FilterAppend(init, [last], (f: FeedbackRow) => f.vote == "up");
      FilterAppend(init, [last], (f: FeedbackRow) => f.vote == "down");
    }
  }

  /** Non-negative scores give a non-negative primary component. */
  lemma {:induction false} PrimaryNonNegative(rows: seq<RatingRow>)
    requires forall x :: x in rows ==> x.score >= 0
    ensures PrimaryComponent(rows) >= 0.0
  {
    if rows != [] {
      PrimaryNonNegative(rows[..|rows| - 1]);
      assert rows[|rows| - 1] in rows;
    }
  }

  /** The combined score is the clamped sum of half of every score, plus
      the up votes, minus the down votes. */
  lemma CombinedIsClampedBalance(rows: seq<RatingRow>, votes: seq<FeedbackRow>)
    ensures CombinedScore(rows, votes)
         == Clamp(SumScores(rows) as real / 2.0 + (CountVotes(votes, "up") - CountVotes(votes, "down")) as real)
  {
    PrimaryIsHalfTheSum(rows);
    FeedbackIsUpMinusDown(votes);
  }

  /** With no rating rows, the combined score is the vote balance when that is
      positive, and 0 otherwise (100 at most). */
  lemma VotesOnly(votes: seq<FeedbackRow>)
    ensures CombinedScore([], votes) == Clamp((CountVotes(votes, "up") - CountVotes(votes, "down")) as real)
  {
    FeedbackIsUpMinusDown(votes);
  }
}
