/** The score-conflict dialog shown to power users: on load it flags a
    property whose two primary rating rows differ by more than 20 points, and
    a successful recomputation of the combined score closes it. */
module ScoreConflictResolver {
  import opened Common
  import opened Store

  /** Two scores further apart than this are a conflict. */
  const ConflictThreshold := 20

  /** Exactly two rows whose scores differ by more than the threshold. The
      rows counted are rating rows, not users. */
  predicate IsConflict(rows: seq<RatingRow>)
  {
    |rows| == 2 && Abs(rows[0].score - rows[1].score) > ConflictThreshold
  }

  /** The rows the check fetches: this property's rating rows by primary
      users; a failed primary-user lookup restricts to no user at all. */
  function CheckedRows(users: seq<UserRow>, ratings: seq<RatingRow>, propertyId: string, usersFail: bool): seq<RatingRow>
  {
    RatingsFor(ratings, propertyId, if usersFail then [] else PrimaryIds(users))
  }

  /** The outcome of the POST to the calculate-score endpoint. */
  datatype RecomputeOutcome = Threw | Answered(ok: bool)

  class Resolver {
    const propertyId: string
    /** The signed-in user's role; absent when the user or the role is unknown. */
    const role: Option<Role>
    var open: bool
    var scores: seq<RatingRow>

    constructor (propertyId: string, role: Option<Role>)
      ensures this.propertyId == propertyId && this.role == role
      ensures !open && scores == []
    {
      this.propertyId := propertyId;
      this.role := role;
      open := false;
      scores := [];
    }

    /** The dialog is rendered only for power users, and is visible while open. */
    predicate DialogVisible(): (v: bool)
      reads this
      ensures v ==> role == Some(Power) && open
      ensures role == Some(Power) ==> (v <==> open)
    {
      role == Some(Power) && open
    }

    /** The effect run when the component loads: only power users check. */
    method OnLoad(users: seq<UserRow>, ratings: seq<RatingRow>, usersFail: bool, ratingsFail: bool)
      modifies this`open, this`scores
      ensures role != Some(Power) ==> open == old(open) && scores == old(scores)
      ensures role == Some(Power) ==> CheckResult(old(open), old(scores), CheckedRows(users, ratings, propertyId, usersFail), ratingsFail)
                                        == (open, scores)
    {
      if role != Some(Power) {
        return;
      }
      CheckConflicts(users, ratings, usersFail, ratingsFail);
    }

    /** `checkConflicts`: a fetch error leaves the state alone; a conflict
        stores the two rows and opens the dialog; otherwise nothing changes. */
    method CheckConflicts(users: seq<UserRow>, ratings: seq<RatingRow>, usersFail: bool, ratingsFail: bool)
      modifies this`open, this`scores
      ensures (open, scores) == CheckResult(old(open), old(scores), CheckedRows(users, ratings, propertyId, usersFail), ratingsFail)
    {
      var rows := CheckedRows(users, ratings, propertyId, usersFail);
      if ratingsFail {
        return;
      }
      if |rows| == 2 && Abs(rows[0].score - rows[1].score) > ConflictThreshold {
        scores := rows;
        open := true;
      }
    }

    /** `handleResolve`: only an OK answer closes the dialog; there is no retry. */
    method HandleResolve(outcome: RecomputeOutcome)
      modifies this`open
      ensures open == (old(open) && outcome != Answered(true))
    {
      if outcome == Answered(true) {
        open := false;
      }
    }

    /** The dialog's own close control (`onOpenChange`). */
    method SetOpen(value: bool)
      modifies this`open
      ensures open == value
    {
      open := value;
    }
  }

  /** The state `(open, scores)` after one check. */
  function CheckResult(open: bool, scores: seq<RatingRow>, rows: seq<RatingRow>, fetchFailed: bool): (r: (bool, seq<RatingRow>))
    ensures fetchFailed ==> r == (open, scores)
    ensures !fetchFailed && IsConflict(rows) ==> r == (true, rows)
    ensures !IsConflict(rows) ==> r == (open, scores)
  {
    if !fetchFailed && IsConflict(rows) then (true, rows) else (open, scores)
  }

  /** A check never closes the dialog, and opens it exactly on a conflict. */
  lemma CheckNeverCloses(open: bool, scores: seq<RatingRow>, rows: seq<RatingRow>, fetchFailed: bool)
    ensures CheckResult(open, scores, rows, fetchFailed).0 == (open || (!fetchFailed && IsConflict(rows)))
  {
  }

  /** A difference of exactly 20 is not a conflict, and neither is any
      number of rows other than two. */
  lemma ThresholdIsStrict(a: RatingRow, b: RatingRow, rows: seq<RatingRow>)
    ensures Abs(a.score - b.score) <= 20 ==> !IsConflict([a, b])
    ensures Abs(a.score - b.score) > 20 ==> IsConflict([a, b])
    ensures |rows| != 2 ==> !IsConflict(rows)
  {
  }

  /** The conflict does not depend on the order of the two rows. */
  lemma ConflictSymmetric(a: RatingRow, b: RatingRow)
    ensures IsConflict([a, b]) == IsConflict([b, a])
  {
  }

  /** Rows, not users, are counted: when two different users each have at
      least two checked rows, there are more than two rows and no conflict
      is flagged, however far apart their scores are. */
  lemma RowsNotUsers(rows: seq<RatingRow>, u: string, v: string, i1: nat, i2: nat, j1: nat, j2: nat)
    requires u != v
    requires i1 < i2 < |rows| && j1 < j2 < |rows|
    requires rows[i1].userId == u && rows[i2].userId == u
    requires rows[j1].userId == v && rows[j2].userId == v
    ensures |rows| > 2 && !IsConflict(rows)
  {
  }
}
