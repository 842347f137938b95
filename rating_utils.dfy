/** Seeding of the initial per-criterion scores for a newly added property
    and one primary user (`populateInitialRatings`). */
module RatingUtils {
  import opened Common
  import opened Store

  /** The initial score never exceeds this cap. */
  const ScoreCap := 100

  /** `priorities.find(p => p.name.toLowerCase() === name.toLowerCase())`. */
  function FindPriority(ps: seq<Priority>, name: string): (r: Option<Priority>)
    ensures r.Some? ==> r.value in ps && SameIgnoringCase(r.value.name, name)
    ensures r.None? ==> forall p :: p in ps ==> !SameIgnoringCase(p.name, name)
  {
    if ps == [] then None
    else if SameIgnoringCase(ps[0].name, name) then Some(ps[0])
    else FindPriority(ps[1..], name)
  }

  /** When several priorities match, the first one in list order is found. */
  lemma {:induction false} FindPriorityFirst(ps: seq<Priority>, name: string, i: nat)
    requires i < |ps| && SameIgnoringCase(ps[i].name, name)
    requires forall j :: 0 <= j < i ==> !SameIgnoringCase(ps[j].name, name)
    ensures FindPriority(ps, name) == Some(ps[i])
  {
    if i > 0 {
      FindPriorityFirst(ps[1..], name, i - 1);
    }
  }

  /** `features.some(f => f.toLowerCase().includes(name.toLowerCase()))`. */
  predicate Mentions(features: seq<string>, name: string)
  {
    exists f :: f in features && Includes(Lower(f), Lower(name))
  }

  /** The score seeded for one criterion: weight times points of the first
      priority named like the criterion, when a feature mentions the
      criterion's name; otherwise 0; capped at 100 either way. */
  function InitialScore(features: seq<string>, ps: seq<Priority>, c: Criterion): (score: int)
    ensures score <= ScoreCap
  {
    var raw := match FindPriority(ps, c.name)
               case Some(p) => if Mentions(features, c.name) then p.weight * c.points else 0
               case None => 0;
    Min(raw, ScoreCap)
  }

  /** The seeded score is `min(weight × points, 100)` for the first priority
      whose name equals the criterion's ignoring case, provided some feature
      contains that name ignoring case, and 0 in every other case. */
  lemma InitialScoreRule(features: seq<string>, ps: seq<Priority>, c: Criterion, i: nat)
    requires i < |ps| && SameIgnoringCase(ps[i].name, c.name)
    requires forall j :: 0 <= j < i ==> !SameIgnoringCase(ps[j].name, c.name)
    ensures Mentions(features, c.name) ==> InitialScore(features, ps, c) == Min(ps[i].weight * c.points, 100)
    ensures !Mentions(features, c.name) ==> InitialScore(features, ps, c) == 0
  {
    FindPriorityFirst(ps, c.name, i);
  }

  /** Without a priority of the same name the score is 0. */
  lemma InitialScoreNoPriority(features: seq<string>, ps: seq<Priority>, c: Criterion)
    requires forall p :: p in ps ==> !SameIgnoringCase(p.name, c.name)
    ensures InitialScore(features, ps, c) == 0
  {
  }

  /** A property with no features scores 0 on every criterion. */
  lemma NoFeaturesScoreZero(ps: seq<Priority>, c: Criterion)
    ensures InitialScore([], ps, c) == 0
  {
  }

  /** With weights in [1,10] and non-negative points the score lies in [0,100]. */
  lemma InitialScoreInRange(features: seq<string>, ps: seq<Priority>, c: Criterion)
    requires forall p :: p in ps ==> 1 <= p.weight <= 10
    requires c.points >= 0
    ensures 0 <= InitialScore(features, ps, c) <= 100
  {
    match FindPriority(ps, c.name)
    case Some(p) =>
      assert p in ps;
      assert p.weight * c.points >= 0;
    case None =>
  }

  // ---------------------------------------------------------------------
  // The insert loop
  // ---------------------------------------------------------------------

  /** Which store calls of one population run fail: the three fetches, and
      the row inserts by their position in criterion order. */
  datatype PopulateFaults = PopulateFaults(
    property: bool, priorities: bool, criteria: bool, failedInserts: set<nat>)

  function SeedRow(propertyId: string, userId: string, features: seq<string>, ps: seq<Priority>, c: Criterion): RatingRow
  {
    RatingRow(userId, propertyId, c.id, InitialScore(features, ps, c))
  }

  /** One row per criterion, in criterion order. */
  function SeedRows(propertyId: string, userId: string, features: seq<string>, ps: seq<Priority>, cs: seq<Criterion>): (rows: seq<RatingRow>)
    ensures |rows| == |cs|
    ensures forall i :: 0 <= i < |cs| ==> rows[i] == SeedRow(propertyId, userId, features, ps, cs[i])
  {
    seq(|cs|, i requires 0 <= i < |cs| => SeedRow(propertyId, userId, features, ps, cs[i]))
  }

  /** The rows whose insert succeeded, in order. */
  function Inserted(rows: seq<RatingRow>, failed: set<nat>): (r: seq<RatingRow>)
    ensures |r| <= |rows|
  {
    if rows == [] then []
    else Inserted(rows[..|rows| - 1], failed) + (if |rows| - 1 in failed then [] else [rows[|rows| - 1]])
  }

  /** Taking one more seeded row adds it unless its insert fails. */
  lemma InsertedStep(rows: seq<RatingRow>, i: nat, failed: set<nat>)
    requires i < |rows|
    ensures Inserted(rows[..i + 1], failed) == Inserted(rows[..i], failed) + (if i in failed then [] else [rows[i]])
  {
    assert rows[..i + 1][..i] == rows[..i];
  }

  lemma {:induction false} InsertedAll(rows: seq<RatingRow>)
    ensures Inserted(rows, {}) == rows
  {
    if rows != [] {
      InsertedAll(rows[..|rows| - 1]);
    }
  }

  /** When every insert fails nothing is added. */
  lemma {:induction false} InsertedNone(rows: seq<RatingRow>, failed: set<nat>)
    requires forall i :: 0 <= i < |rows| ==> i in failed
    ensures Inserted(rows, failed) == []
  {
    if rows != [] {
      InsertedNone(rows[..|rows| - 1], failed);
    }
  }

  /** Every inserted row is one of the seeded rows. */
  lemma {:induction false} InsertedSubset(rows: seq<RatingRow>, failed: set<nat>)
    ensures forall x :: x in Inserted(rows, failed) ==> x in rows
  {
    if rows != [] {
      InsertedSubset(rows[..|rows| - 1], failed);
    }
  }

  /** The rows one call of `populateInitialRatings` adds for `userId` to the
      rating table: nothing when any fetch fails (the error is logged and the
      call returns normally), otherwise the seeded row of every criterion of
      the user whose insert did not fail. */
  function PopulatedRows(props: seq<PropertyRow>, priorities: seq<Priority>, criteria: seq<Criterion>,
                         propertyId: string, userId: string, faults: PopulateFaults): seq<RatingRow>
  {
    var property := PropertyById(props, propertyId);
    if faults.property || property.None? || faults.priorities || faults.criteria then []
    else Inserted(SeedRows(propertyId, userId, property.value.features,
                           PrioritiesOf(priorities, userId), CriteriaOf(criteria, userId)),
                  faults.failedInserts)
  }

  /** `populateInitialRatings(propertyId, userId)`: fetch the property's
      features and the user's priorities and criteria, then insert one
      scored row per criterion; a failed insert is ignored. */
  method PopulateInitialRatings(db: Database, propertyId: string, userId: string, faults: PopulateFaults)
    modifies db`ratings
    ensures db.ratings == old(db.ratings)
      + PopulatedRows(db.properties, db.priorities, db.criteria, propertyId, userId, faults)
  {
    var property := PropertyById(db.properties, propertyId);
    if faults.property || property.None? {
      return;
    }
    var ps := PrioritiesOf(db.priorities, userId);
    var cs := CriteriaOf(db.criteria, userId);
    if faults.priorities || faults.criteria {
      return;
    }
    ghost var all := SeedRows(propertyId, userId, property.value.features, ps, cs);
    for i := 0 to |cs|
      invariant db.ratings == old(db.ratings) + Inserted(all[..i], faults.failedInserts)
    {
      var score := 0;
      var matching := FindPriority(ps, cs[i].name);
      if matching.Some? && Mentions(property.value.features, cs[i].name) {
        score := matching.value.weight * cs[i].points;
      }
      InsertedStep(all, i, faults.failedInserts);
      assert all[i] == RatingRow(userId, propertyId, cs[i].id, Min(score, ScoreCap));
      if i !in faults.failedInserts {
        db.ratings := db.ratings + [RatingRow(userId, propertyId, cs[i].id, Min(score, ScoreCap))];
      }
    }
    assert all[..|cs|] == all;
  }

  /** With no fetch or insert failure, exactly one row per criterion of the
      user is added, in criterion order, zero scores included. */
  lemma OneRowPerCriterion(props: seq<PropertyRow>, priorities: seq<Priority>, criteria: seq<Criterion>,
                           propertyId: string, userId: string)
    requires PropertyById(props, propertyId).Some?
    ensures var rows := PopulatedRows(props, priorities, criteria, propertyId, userId, PopulateFaults(false, false, false, {}));
            var cs := CriteriaOf(criteria, userId);
            |rows| == |cs|
            && forall i :: 0 <= i < |cs| ==>
                 rows[i].ratingId == cs[i].id && rows[i].userId == userId && rows[i].propertyId == propertyId
                 && rows[i].score == InitialScore(PropertyById(props, propertyId).value.features,
                                                  PrioritiesOf(priorities, userId), cs[i])
  {
    var features := PropertyById(props, propertyId).value.features;
    InsertedAll(SeedRows(propertyId, userId, features, PrioritiesOf(priorities, userId), CriteriaOf(criteria, userId)));
  }

  /** A failed fetch of the property, the priorities or the criteria adds no row. */
  lemma FetchFailureAddsNothing(props: seq<PropertyRow>, priorities: seq<Priority>, criteria: seq<Criterion>,
                                propertyId: string, userId: string, faults: PopulateFaults)
    requires faults.property || faults.priorities || faults.criteria
    ensures PopulatedRows(props, priorities, criteria, propertyId, userId, faults) == []
  {
  }

  /** Every added row belongs to the given property and user and carries a
      score of at most 100. */
  lemma PopulatedRowsShape(props: seq<PropertyRow>, priorities: seq<Priority>, criteria: seq<Criterion>,
                           propertyId: string, userId: string, faults: PopulateFaults)
    ensures forall x :: x in PopulatedRows(props, priorities, criteria, propertyId, userId, faults) ==>
              x.propertyId == propertyId && x.userId == userId && x.score <= 100
  {
    var property := PropertyById(props, propertyId);
    if !(faults.property || property.None? || faults.priorities || faults.criteria) {
      InsertedSubset(SeedRows(propertyId, userId, property.value.features,
                              PrioritiesOf(priorities, userId), CriteriaOf(criteria, userId)),
                     faults.failedInserts);
    }
  }

  /** Under a generated id population is not idempotent: a second call for
      the same property and user appends the same rows again. */
  method PopulateTwice(db: Database, propertyId: string, userId: string)
    requires PropertyById(db.properties, propertyId).Some? && db.ratingKey == GeneratedId
    modifies db`ratings
    ensures var added := PopulatedRows(db.properties, db.priorities, db.criteria, propertyId, userId,
                                       PopulateFaults(false, false, false, {}));
            db.ratings == old(db.ratings) + added + added
            && |db.ratings| == |old(db.ratings)| + 2 * |CriteriaOf(db.criteria, userId)|
  {
    var noFaults := PopulateFaults(false, false, false, {});
    PopulateInitialRatings(db, propertyId, userId, noFaults);
    PopulateInitialRatings(db, propertyId, userId, noFaults);
    OneRowPerCriterion(db.properties, db.priorities, db.criteria, propertyId, userId);
  }

  /** The positions of the rows whose (user, property, criterion) triple the
      table already holds: under that key exactly these inserts fail. */
  function Collisions(table: seq<RatingRow>, rows: seq<RatingRow>): (r: set<nat>)
    ensures forall i: nat :: i in r <==> i < |rows| && exists x :: x in table && SameKey(x, rows[i])
  {
    set i: nat | i < |rows| && exists x :: x in table && SameKey(x, rows[i])
  }

  /** Under the (user, property, criterion) key a repeated population adds
      nothing: after a first run without failures, every insert of the
      second run hits a triple the first one stored. */
  lemma KeyedRepeatAddsNothing(props: seq<PropertyRow>, priorities: seq<Priority>, criteria: seq<Criterion>,
                               propertyId: string, userId: string, table: seq<RatingRow>)
    requires PropertyById(props, propertyId).Some?
    ensures var first := PopulatedRows(props, priorities, criteria, propertyId, userId,
                                       PopulateFaults(false, false, false, {}));
            var seeded := SeedRows(propertyId, userId, PropertyById(props, propertyId).value.features,
                                   PrioritiesOf(priorities, userId), CriteriaOf(criteria, userId));
            first == seeded
            && PopulatedRows(props, priorities, criteria, propertyId, userId,
                             PopulateFaults(false, false, false, Collisions(table + first, seeded))) == []
  {
    var seeded := SeedRows(propertyId, userId, PropertyById(props, propertyId).value.features,
                           PrioritiesOf(priorities, userId), CriteriaOf(criteria, userId));
    InsertedAll(seeded);
    var failed := Collisions(table + seeded, seeded);
    forall i | 0 <= i < |seeded|
      ensures i in failed
    {
      assert seeded[i] in table + seeded;
    }
    InsertedNone(seeded, failed);
  }
}
