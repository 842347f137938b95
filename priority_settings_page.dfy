/** The settings page where a primary user keeps a list of weighted
    priorities (at most 10) and a list of rating criteria (at most 5). The
    page checks its caps against the lists it has loaded, inserts the new row
    and reloads the list. */
module PrioritySettingsPage {
  import opened Common
  import opened Store

  const MaxNameLength := 50
  const MinWeight := 1
  const MaxWeight := 10
  const MaxPriorities := 10
  const MaxCriteria := 5

  /** The priority form; `weight` is what `parseInt` reads from the number
      input, `None` for a cleared or non-numeric field (NaN). */
  datatype PriorityValues = PriorityValues(name: string, weight: Option<int>)
  datatype CriterionValues = CriterionValues(name: string, category: Category)

  /** `prioritySchema`: a name of 1 to 50 characters, a weight in [1, 10]
      (NaN is not a number to `z.number()`). */
  predicate ValidPriority(v: PriorityValues)
  {
    1 <= |v.name| <= MaxNameLength && v.weight.Some? && MinWeight <= v.weight.value <= MaxWeight
  }

  /** A cleared or non-numeric weight keeps the priority form from
      submitting, whatever the name. */
  lemma ClearedWeightRejected(name: string)
    ensures !ValidPriority(PriorityValues(name, None))
  {
  }

  /** `ratingSchema`: a name of 1 to 50 characters; the category is one of
      the four values by construction. */
  predicate ValidCriterion(v: CriterionValues)
  {
    1 <= |v.name| <= MaxNameLength
  }

  /** The points shown beside each category in the picker. */
  function OfferedPoints(c: Category): (p: int)
    ensures p in {10, 5, 2, 0}
  {
    match c
    case MustHave => 10
    case NiceToHave => 5
    case WouldLike => 2
    case NotImportant => 0
  }

  const PriorityDefaults := PriorityValues("", Some(1))
  const CriterionDefaults := CriterionValues("", NotImportant)

  /** What one submission of either form comes to. */
  datatype Outcome = Rejected | LimitReached | InsertFailed | Added

  /** The decision both submit handlers make: the form only submits valid
      values, a full loaded list refuses, and otherwise the insert decides. */
  function Decide(valid: bool, loaded: nat, cap: nat, insertFails: bool): (r: Outcome)
    ensures r == Added <==> valid && loaded < cap && !insertFails
    ensures r == LimitReached <==> valid && loaded >= cap
    ensures r == Rejected <==> !valid
  {
    if !valid then Rejected
    else if loaded >= cap then LimitReached
    else if insertFails then InsertFailed
    else Added
  }

  /** What the page shows. */
  datatype View = AccessDenied | Settings(priorities: seq<Priority>, criteria: seq<Criterion>)

  class Page {
    const userId: string
    const role: Option<Role>
    var priorities: seq<Priority>
    var criteria: seq<Criterion>
    var priorityForm: PriorityValues
    var criterionForm: CriterionValues

    constructor (userId: string, role: Option<Role>)
      ensures this.userId == userId && this.role == role
      ensures priorities == [] && criteria == []
      ensures priorityForm == PriorityDefaults && criterionForm == CriterionDefaults
    {
      this.userId := userId;
      this.role := role;
      priorities, criteria := [], [];
      priorityForm, criterionForm := PriorityDefaults, CriterionDefaults;
    }

    function Render(): (v: View)
      reads this
      ensures v == AccessDenied <==> role != Some(Primary)
    {
      if role != Some(Primary) then AccessDenied else Settings(priorities, criteria)
    }

    /** The load effect: only a primary user's page fetches; each list is
        replaced by the user's rows unless its fetch fails. */
    method Load(db: Database, prioritiesFail: bool, criteriaFail: bool)
      modifies this`priorities, this`criteria
      ensures role != Some(Primary) ==> priorities == old(priorities) && criteria == old(criteria)
      ensures role == Some(Primary) ==>
                priorities == (if prioritiesFail then old(priorities) else PrioritiesOf(db.priorities, userId))
                && criteria == (if criteriaFail then old(criteria) else CriteriaOf(db.criteria, userId))
    {
      if role != Some(Primary) {
        return;
      }
      if !prioritiesFail {
        priorities := PrioritiesOf(db.priorities, userId);
      }
      if !criteriaFail {
        criteria := CriteriaOf(db.criteria, userId);
      }
    }

    /** `handlePrioritySubmit`: a new priority row is inserted only when the
        values are valid and fewer than 10 priorities are loaded; after a
        successful insert the list is reloaded and the form reset. */
    method SubmitPriority(db: Database, values: PriorityValues, newId: string, insertFails: bool, refetchFails: bool)
      returns (outcome: Outcome)
      modifies db`priorities, this`priorities, this`priorityForm
      ensures outcome == Decide(ValidPriority(values), |old(priorities)|, MaxPriorities, insertFails)
      ensures outcome != Added ==> db.priorities == old(db.priorities) && priorities == old(priorities)
                                   && priorityForm == old(priorityForm)
      ensures outcome == Added ==>
                db.priorities == old(db.priorities) + [Priority(newId, userId, values.name, values.weight.value)]
                && priorities == (if refetchFails then old(priorities) else PrioritiesOf(db.priorities, userId))
                && priorityForm == PriorityDefaults
    {
      outcome := Decide(ValidPriority(values), |priorities|, MaxPriorities, insertFails);
      if outcome != Added {
        return;
      }
      db.priorities := db.priorities + [Priority(newId, userId, values.name, values.weight.value)];
      if !refetchFails {
        priorities := PrioritiesOf(db.priorities, userId);
      }
      priorityForm := PriorityDefaults;
    }

    /** `handleRatingSubmit`: the same for criteria, with a cap of 5. The
        insert names only the user, the name and the category; the stored
        points are whatever the store fills in. */
    method SubmitCriterion(db: Database, values: CriterionValues, newId: string, storedPoints: int,
                           insertFails: bool, refetchFails: bool)
      returns (outcome: Outcome)
      modifies db`criteria, this`criteria, this`criterionForm
      ensures outcome == Decide(ValidCriterion(values), |old(criteria)|, MaxCriteria, insertFails)
      ensures outcome != Added ==> db.criteria == old(db.criteria) && criteria == old(criteria)
                                   && criterionForm == old(criterionForm)
      ensures outcome == Added ==>
                db.criteria == old(db.criteria) + [Criterion(newId, userId, values.name, values.category, storedPoints)]
                && criteria == (if refetchFails then old(criteria) else CriteriaOf(db.criteria, userId))
                && criterionForm == CriterionDefaults
    {
      outcome := Decide(ValidCriterion(values), |criteria|, MaxCriteria, insertFails);
      if outcome != Added {
        return;
      }
      db.criteria := db.criteria + [Criterion(newId, userId, values.name, values.category, storedPoints)];
      if !refetchFails {
        criteria := CriteriaOf(db.criteria, userId);
      }
      criterionForm := CriterionDefaults;
    }

    /** `handleDeletePriority`: the row with that id goes; the list is
        reloaded after a successful delete. */
    method DeletePriority(db: Database, id: string, deleteFails: bool, refetchFails: bool)
      modifies db`priorities, this`priorities
      ensures deleteFails ==> db.priorities == old(db.priorities) && priorities == old(priorities)
      ensures !deleteFails ==> db.priorities == Filter(old(db.priorities), (p: Priority) => p.id != id)
      ensures !deleteFails ==> priorities == (if refetchFails then old(priorities) else PrioritiesOf(db.priorities, userId))
    {
      if deleteFails {
        return;
      }
      db.priorities := Filter(db.priorities, (p: Priority) => p.id != id);
      if !refetchFails {
        priorities := PrioritiesOf(db.priorities, userId);
      }
    }
  }

  /** Adding a row of the user's own to the store appends it to the user's
      list. */
  lemma PrioritiesOfSnoc(ps: seq<Priority>, p: Priority, userId: string)
    requires p.userId == userId
    ensures PrioritiesOf(ps + [p], userId) == PrioritiesOf(ps, userId) + [p]
  {
    FilterAppend(ps, [p], (q: Priority) => q.userId == userId);
  }

  lemma CriteriaOfSnoc(cs: seq<Criterion>, c: Criterion, userId: string)
    requires c.userId == userId
    ensures CriteriaOf(cs + [c], userId) == CriteriaOf(cs, userId) + [c]
  {
    FilterAppend(cs, [c], (q: Criterion) => q.userId == userId);
  }

  /** While the loaded list is the user's list in the store, the cap holds
      in the store: a user with at most 10 priorities still has at most 10
      after a submission. */
  lemma PriorityCapKept(ps: seq<Priority>, userId: string, values: PriorityValues, newId: string, insertFails: bool)
    requires |PrioritiesOf(ps, userId)| <= MaxPriorities
    ensures var added := Decide(ValidPriority(values), |PrioritiesOf(ps, userId)|, MaxPriorities, insertFails) == Added;
            var after := if added then ps + [Priority(newId, userId, values.name, values.weight.value)] else ps;
            |PrioritiesOf(after, userId)| <= MaxPriorities
  {
    if Decide(ValidPriority(values), |PrioritiesOf(ps, userId)|, MaxPriorities, insertFails) == Added {
      PrioritiesOfSnoc(ps, Priority(newId, userId, values.name, values.weight.value), userId);
    }
  }

  /** The same for criteria and the cap of 5. */
  lemma CriterionCapKept(cs: seq<Criterion>, userId: string, values: CriterionValues, newId: string,
                         storedPoints: int, insertFails: bool)
    requires |CriteriaOf(cs, userId)| <= MaxCriteria
    ensures var added := Decide(ValidCriterion(values), |CriteriaOf(cs, userId)|, MaxCriteria, insertFails) == Added;
            var after := if added then cs + [Criterion(newId, userId, values.name, values.category, storedPoints)] else cs;
            |CriteriaOf(after, userId)| <= MaxCriteria
  {
    if Decide(ValidCriterion(values), |CriteriaOf(cs, userId)|, MaxCriteria, insertFails) == Added {
      CriteriaOfSnoc(cs, Criterion(newId, userId, values.name, values.category, storedPoints), userId);
    }
  }

  /** Every priority the page accepts has a weight in [1, 10], so its
      contribution to an initial score is at most 10 times the points. */
  lemma AcceptedWeightInRange(values: PriorityValues, loaded: nat, insertFails: bool)
    requires Decide(ValidPriority(values), loaded, MaxPriorities, insertFails) == Added
    ensures values.weight.Some? && 1 <= values.weight.value <= 10 && 1 <= |values.name| <= 50 && loaded < 10
  {
  }
}
