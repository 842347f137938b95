/** The rows of the hosted relational store that the application reads and
    writes, the queries it runs against them, and the store itself as an
    object whose tables are updated in place. */
module Store {
  import opened Common

  datatype Role = Power | Primary | Secondary

  /** `users(id, role)`. */
  datatype UserRow = UserRow(id: string, role: Role)

  /** `user_priorities(id, user_id, name, weight)`. */
  datatype Priority = Priority(id: string, userId: string, name: string, weight: int)

  datatype Category = MustHave | NiceToHave | WouldLike | NotImportant

  /** `user_ratings(id, user_id, name, category, points)`: a rating criterion. */
  datatype Criterion = Criterion(id: string, userId: string, name: string, category: Category, points: int)

  /** `user_property_ratings(user_id, property_id, rating_id, score)`. */
  datatype RatingRow = RatingRow(userId: string, propertyId: string, ratingId: string, score: int)

  /** Two rating rows are about the same user, property and criterion. */
  predicate SameKey(a: RatingRow, b: RatingRow)
  {
    a.userId == b.userId && a.propertyId == b.propertyId && a.ratingId == b.ratingId
  }

  /** The primary key of `user_property_ratings`, which decides what an
      upsert without a conflict target does. With a generated `id` key the
      written row carries no id, so every upsert inserts a new row. With the
      (user, property, criterion) triple as key, an upsert replaces the row
      of that triple, and a plain insert of a triple already present fails. */
  datatype RatingKey = GeneratedId | UserPropertyCriterion

  /** How a `property_scores (combined_score)` embed arrives with a
      property: as one object (or null), which is what the store returns when
      `property_id` is unique in that table, or as a list of rows. */
  datatype ScoreEmbed = SingleObject | RowList

  /** `user_feedback(user_id, property_id, vote)`; `vote` is the stored text
      ("up", "down", or anything else, which counts as no vote). */
  datatype FeedbackRow = FeedbackRow(userId: string, propertyId: string, vote: string)

  /** `properties`. A `dateOnSale` of `None` is a stored null. */
  datatype PropertyRow = PropertyRow(
    id: string, url: string, imageUrl: string, price: real,
    description: string, location: string, bedrooms: int,
    dateOnSale: Option<string>, estateAgent: string,
    reduced: bool, views: bool, gardens: bool, outbuildings: bool,
    condition: string, features: seq<string>, addedBy: string)

  // ---------------------------------------------------------------------
  // Queries (select with filters) as functions of a table's rows
  // ---------------------------------------------------------------------

  /** `users.select('id').eq('role', 'primary')`, in table order. */
  function PrimaryIds(users: seq<UserRow>): (ids: seq<string>)
    ensures |ids| <= |users|
    ensures forall id :: id in ids <==> UserRow(id, Primary) in users
  {
    if users == [] then []
    else (if users[0].role == Primary then [users[0].id] else []) + PrimaryIds(users[1..])
  }

  lemma {:induction false} NoPrimaryIds(users: seq<UserRow>)
    requires forall u :: u in users ==> u.role != Primary
    ensures PrimaryIds(users) == []
  {
    if users != [] {
      NoPrimaryIds(users[1..]);
    }
  }

  /** `properties.select(..).eq('id', id).single()`: the row when exactly one
      row has that id, and an error (`None`) for zero or several. */
  function PropertyById(props: seq<PropertyRow>, id: string): (r: Option<PropertyRow>)
    ensures r.Some? ==> r.value in props && r.value.id == id
    ensures (forall q :: q in props ==> q.id != id) ==> r.None?
  {
    var found := Filter(props, IdIs(id));
    if |found| == 1 then Some(found[0]) else None
  }

  function IdIs(id: string): PropertyRow -> bool
  {
    (q: PropertyRow) => q.id == id
  }

  /** A row appended under an id no earlier row has is the one found. */
  lemma PropertyByIdFresh(props: seq<PropertyRow>, row: PropertyRow)
    requires forall q :: q in props ==> q.id != row.id
    ensures PropertyById(props + [row], row.id) == Some(row)
  {
    FilterAppend(props, [row], IdIs(row.id));
    FilterNone(props, IdIs(row.id));
  }

  /** `user_priorities.select('*').eq('user_id', userId)`. */
  function PrioritiesOf(ps: seq<Priority>, userId: string): seq<Priority>
  {
    Filter(ps, (p: Priority) => p.userId == userId)
  }

  /** `user_ratings.select('*').eq('user_id', userId)`. */
  function CriteriaOf(cs: seq<Criterion>, userId: string): seq<Criterion>
  {
    Filter(cs, (c: Criterion) => c.userId == userId)
  }

  function RatingSelector(propertyId: string, ids: seq<string>): RatingRow -> bool
  {
    (x: RatingRow) => x.propertyId == propertyId && x.userId in ids
  }

  /** `user_property_ratings.select(..).eq('property_id', propertyId).in('user_id', ids)`. */
  function RatingsFor(rows: seq<RatingRow>, propertyId: string, ids: seq<string>): (r: seq<RatingRow>)
    ensures forall x :: x in r <==> x in rows && x.propertyId == propertyId && x.userId in ids
  {
    Filter(rows, RatingSelector(propertyId, ids))
  }

  /** `user_feedback.select('vote').eq('property_id', propertyId)`. */
  function FeedbackFor(rows: seq<FeedbackRow>, propertyId: string): (r: seq<FeedbackRow>)
    ensures forall x :: x in r <==> x in rows && x.propertyId == propertyId
  {
    Filter(rows, (x: FeedbackRow) => x.propertyId == propertyId)
  }

  /** The store: every table the application touches, changed in place by
      inserts, updates and upserts. */
  class Database {
    var users: seq<UserRow>
    var properties: seq<PropertyRow>
    var priorities: seq<Priority>
    var criteria: seq<Criterion>
    var ratings: seq<RatingRow>
    var feedback: seq<FeedbackRow>
    /** `property_scores`, unique per property id. */
    var scores: map<string, real>
    /** `property_features`, unique per (property id, adding user id). */
    var featureLists: map<(string, string), seq<string>>
    /** How `user_property_ratings` is keyed. */
    const ratingKey: RatingKey
    /** The shape of a `property_scores` embed. */
    const scoreEmbed: ScoreEmbed

    constructor Empty(ratingKey: RatingKey, scoreEmbed: ScoreEmbed)
      ensures this.ratingKey == ratingKey && this.scoreEmbed == scoreEmbed
      ensures users == [] && properties == [] && priorities == [] && criteria == []
      ensures ratings == [] && feedback == [] && scores == map[] && featureLists == map[]
    {
      this.ratingKey, this.scoreEmbed := ratingKey, scoreEmbed;
      users, properties, priorities, criteria := [], [], [], [];
      ratings, feedback, scores, featureLists := [], [], map[], map[];
    }
  }
}
