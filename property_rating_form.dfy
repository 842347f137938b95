/** The per-property rating form of a primary user: it lists the user's
    criteria, validates a criterion id and a score, and upserts one score
    row, which the table's primary key resolves. */
module PropertyRatingForm {
  import opened Common
  import opened Store

  const MinScore := 0
  const MaxScore := 100

  predicate IsHexDigit(c: char)
  {
    '0' <= c <= '9' || 'a' <= c <= 'f' || 'A' <= c <= 'F'
  }

  /** Five groups of 8, 4, 4, 4 and 12 hex digits, joined by '-'. */
  predicate IsUuid(s: string)
  {
    |s| == 36
    && (forall k :: 0 <= k < 36 && k in {8, 13, 18, 23} ==> s[k] == '-')
    && (forall k :: 0 <= k < 36 && k !in {8, 13, 18, 23} ==> IsHexDigit(s[k]))
  }

  /** The form values; `score` is `None` when the field is empty or holds
      no number. */
  datatype RatingValues = RatingValues(ratingId: string, score: Option<int>)

  const Defaults := RatingValues("", Some(0))

  /** `ratingSchema`: a UUID criterion id and a score in [0, 100]. */
  predicate ValidValues(v: RatingValues)
  {
    IsUuid(v.ratingId) && v.score.Some? && MinScore <= v.score.value <= MaxScore
  }

  /** The defaults are not submittable: no criterion is chosen. */
  lemma DefaultsNotSubmittable()
    ensures !ValidValues(Defaults)
  {
    assert |Defaults.ratingId| != 36;
  }

  predicate UniqueKeys(rows: seq<RatingRow>)
  {
    forall i, j :: 0 <= i < j < |rows| ==> !SameKey(rows[i], rows[j])
  }

  function ReplaceKey(row: RatingRow): RatingRow -> RatingRow
  {
    (x: RatingRow) => if SameKey(x, row) then row else x
  }

  /** `upsert` with no conflict target, resolved on the table's primary key.
      Under a generated id the row is always added at the end. Under the
      (user, property, criterion) key a row of the same triple is replaced in
      place, and otherwise the row is added at the end. */
  function Upsert(key: RatingKey, rows: seq<RatingRow>, row: RatingRow): (r: seq<RatingRow>)
    ensures row in r
    ensures forall x :: x in rows && !SameKey(x, row) ==> x in r
    ensures key == GeneratedId ==> r == rows + [row]
    ensures key == UserPropertyCriterion ==>
              (forall x :: x in r && !SameKey(x, row) <==> x in rows && !SameKey(x, row))
              && (forall x :: x in r && SameKey(x, row) ==> x == row)
  {
    if key == UserPropertyCriterion && exists x :: x in rows && SameKey(x, row) then Map(rows, ReplaceKey(row))
    else rows + [row]
  }

  /** Under the (user, property, criterion) key the table never gains a
      second row for a triple: an existing triple keeps the length, a new one
      adds exactly one row. */
  lemma UpsertKeepsKeysUnique(rows: seq<RatingRow>, row: RatingRow)
    requires UniqueKeys(rows)
    ensures UniqueKeys(Upsert(UserPropertyCriterion, rows, row))
    ensures (exists x :: x in rows && SameKey(x, row)) ==> |Upsert(UserPropertyCriterion, rows, row)| == |rows|
    ensures (forall x :: x in rows ==> !SameKey(x, row)) ==> |Upsert(UserPropertyCriterion, rows, row)| == |rows| + 1
  {
    var r := Upsert(UserPropertyCriterion, rows, row);
    if exists x :: x in rows && SameKey(x, row) {
      forall i, j | 0 <= i < j < |r|
        ensures !SameKey(r[i], r[j])
      {
        assert r[i] == ReplaceKey(row)(rows[i]) && r[j] == ReplaceKey(row)(rows[j]);
        if SameKey(rows[i], row) {
          assert !SameKey(rows[j], row);
        }
      }
    } else {
      forall i, j | 0 <= i < j < |r|
        ensures !SameKey(r[i], r[j])
      {
        if j == |rows| {
          assert rows[i] in rows;
        }
      }
    }
  }

  /** Under the (user, property, criterion) key the last write wins: a
      second upsert of the same triple gives the table a single upsert of the
      second row would have given. */
  lemma LastWriteWins(rows: seq<RatingRow>, a: RatingRow, b: RatingRow)
    requires SameKey(a, b)
    ensures Upsert(UserPropertyCriterion, Upsert(UserPropertyCriterion, rows, a), b)
            == Upsert(UserPropertyCriterion, rows, b)
  {
    var once := Upsert(UserPropertyCriterion, rows, a);
    assert exists x :: x in once && SameKey(x, b) by {
      assert a in once;
    }
    if exists x :: x in rows && SameKey(x, a) {
      var x :| x in rows && SameKey(x, a);
      assert x in rows && SameKey(x, b);
      assert Map(once, ReplaceKey(b)) == Map(rows, ReplaceKey(b)) by {
        forall k | 0 <= k < |rows|
          ensures Map(once, ReplaceKey(b))[k] == Map(rows, ReplaceKey(b))[k]
        {
          assert once[k] == ReplaceKey(a)(rows[k]);
        }
      }
    } else {
      assert forall x :: x in rows ==> !SameKey(x, b);
      assert Map(once, ReplaceKey(b)) == rows + [b] by {
        forall k | 0 <= k < |rows|
          ensures Map(once, ReplaceKey(b))[k] == rows[k]
        {
          assert once[k] == rows[k] && rows[k] in rows;
        }
      }
    }
  }

  /** Under the (user, property, criterion) key, submitting the same values
      twice stores them once. */
  lemma UpsertIdempotent(rows: seq<RatingRow>, row: RatingRow)
    ensures Upsert(UserPropertyCriterion, Upsert(UserPropertyCriterion, rows, row), row)
            == Upsert(UserPropertyCriterion, rows, row)
  {
    LastWriteWins(rows, row, row);
  }

  /** Under a generated id every write is kept: rating the same criterion
      twice leaves two rows for one triple, the later one last. */
  lemma GeneratedIdKeepsBothWrites(rows: seq<RatingRow>, a: RatingRow, b: RatingRow)
    requires SameKey(a, b)
    ensures var r := Upsert(GeneratedId, Upsert(GeneratedId, rows, a), b);
            r == rows + [a, b] && !UniqueKeys(r)
  {
    var r := Upsert(GeneratedId, Upsert(GeneratedId, rows, a), b);
    assert r[|rows|] == a && r[|rows| + 1] == b;
  }

  /** What one submission comes to. */
  datatype Outcome = NotShown | Rejected | UpsertFailed | Saved

  class Form {
    const userId: string
    const role: Option<Role>
    const propertyId: string
    var criteria: seq<Criterion>
    var values: RatingValues

    constructor (userId: string, role: Option<Role>, propertyId: string)
      ensures this.userId == userId && this.role == role && this.propertyId == propertyId
      ensures criteria == [] && values == Defaults
    {
      this.userId, this.role, this.propertyId := userId, role, propertyId;
      criteria, values := [], Defaults;
    }

    /** The criteria offered in the picker, or `None` when the form renders
        nothing (any user who is not primary). */
    function Render(): (r: Option<seq<Criterion>>)
      reads this
      ensures r.Some? <==> role == Some(Primary)
      ensures r.Some? ==> r.value == criteria
    {
      if role == Some(Primary) then Some(criteria) else None
    }

    /** The load effect: only a primary user fetches their criteria; a
        failed fetch keeps the current list. */
    method Load(db: Database, fetchFails: bool)
      modifies this`criteria
      ensures role == Some(Primary) && !fetchFails ==> criteria == CriteriaOf(db.criteria, userId)
      ensures role != Some(Primary) || fetchFails ==> criteria == old(criteria)
    {
      if role != Some(Primary) || fetchFails {
        return;
      }
      criteria := CriteriaOf(db.criteria, userId);
    }

    /** The user edits the fields. */
    method Enter(v: RatingValues)
      modifies this`values
      ensures values == v
    {
      values := v;
    }

    /** `onSubmit`, reached only through a rendered form with values that
        pass the schema: one row is upserted; success resets the form and a
        failure keeps what was entered. */
    method Submit(db: Database, upsertFails: bool) returns (outcome: Outcome)
      modifies db`ratings, this`values
      ensures outcome == NotShown <==> role != Some(Primary)
      ensures outcome == Rejected <==> role == Some(Primary) && !ValidValues(old(values))
      ensures outcome == Saved <==> role == Some(Primary) && ValidValues(old(values)) && !upsertFails
      ensures outcome == Saved ==>
                db.ratings == Upsert(db.ratingKey, old(db.ratings), RatingRow(userId, propertyId, old(values).ratingId, old(values).score.value))
                && values == Defaults
      ensures outcome != Saved ==> db.ratings == old(db.ratings) && values == old(values)
    {
      if role != Some(Primary) {
        return NotShown;
      }
      if !ValidValues(values) {
        return Rejected;
      }
      if upsertFails {
        return UpsertFailed;
      }
      db.ratings := Upsert(db.ratingKey, db.ratings, RatingRow(userId, propertyId, values.ratingId, values.score.value));
      values := Defaults;
      return Saved;
    }
  }

  /** Every score a submission stores lies in [0, 100] and the row is in
      the table afterwards; under the (user, property, criterion) key the
      table keeps one row per triple. */
  lemma SavedScoreInRange(key: RatingKey, rows: seq<RatingRow>, userId: string, propertyId: string, v: RatingValues)
    requires ValidValues(v)
    ensures var row := RatingRow(userId, propertyId, v.ratingId, v.score.value);
            0 <= row.score <= 100 && row in Upsert(key, rows, row)
            && (key == UserPropertyCriterion && UniqueKeys(rows) ==> UniqueKeys(Upsert(key, rows, row)))
  {
    if key == UserPropertyCriterion && UniqueKeys(rows) {
      UpsertKeepsKeysUnique(rows, RatingRow(userId, propertyId, v.ratingId, v.score.value));
    }
  }
}
