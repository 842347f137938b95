/** Adding one feature to a property: read the adding user's feature list
    for the property, append the new feature, and upsert the list back. */
module FeatureInput {
  import opened Common
  import opened Store

  const MaxFeatureLength := 50

  /** `featureSchema`: a feature name of 1 to 50 characters. */
  predicate ValidFeature(f: string)
  {
    1 <= |f| <= MaxFeatureLength
  }

  /** The stored list, or `None` when there is no row yet (the "no rows"
      answer of a single-row read) or its list is null. */
  function Existing(lists: map<(string, string), seq<string>>, propertyId: string, userId: string): Option<seq<string>>
  {
    if (propertyId, userId) in lists then Some(lists[(propertyId, userId)]) else None
  }

  /** `existing ? [...existing, feature] : [feature]`. */
  function AppendFeature(existing: Option<seq<string>>, feature: string): (r: seq<string>)
    ensures |r| >= 1 && r[|r| - 1] == feature
    ensures existing.Some? ==> |r| == |existing.value| + 1 && r[..|r| - 1] == existing.value
    ensures existing.None? ==> r == [feature]
  {
    match existing
    case Some(features) => features + [feature]
    case None => [feature]
  }

  /** The feature lists after a successful add. */
  function AfterAdd(lists: map<(string, string), seq<string>>, propertyId: string, userId: string, feature: string)
    : (r: map<(string, string), seq<string>>)
    ensures r.Keys == lists.Keys + {(propertyId, userId)}
  {
    lists[(propertyId, userId) := AppendFeature(Existing(lists, propertyId, userId), feature)]
  }

  /** Earlier entries stay, in order, and the new feature is last. */
  lemma AppendKeepsEarlier(lists: map<(string, string), seq<string>>, propertyId: string, userId: string, feature: string)
    requires (propertyId, userId) in lists
    ensures var before := lists[(propertyId, userId)];
            var after := AfterAdd(lists, propertyId, userId, feature)[(propertyId, userId)];
            after == before + [feature]
            && forall k :: 0 <= k < |before| ==> after[k] == before[k]
  {
  }

  /** Duplicates are not removed: adding a feature already in the list
      still lengthens it by one. */
  lemma DuplicatesKept(lists: map<(string, string), seq<string>>, propertyId: string, userId: string, feature: string)
    requires (propertyId, userId) in lists && feature in lists[(propertyId, userId)]
    ensures |AfterAdd(lists, propertyId, userId, feature)[(propertyId, userId)]| == |lists[(propertyId, userId)]| + 1
    ensures multiset(AfterAdd(lists, propertyId, userId, feature)[(propertyId, userId)])[feature]
         == multiset(lists[(propertyId, userId)])[feature] + 1
  {
  }

  /** Lists are kept per property and adding user: no other list changes. */
  lemma OtherListsUnchanged(lists: map<(string, string), seq<string>>, propertyId: string, userId: string,
                            feature: string, key: (string, string))
    requires key != (propertyId, userId) && key in lists
    ensures AfterAdd(lists, propertyId, userId, feature)[key] == lists[key]
  {
  }

  /** Adding two features in turn appends both, in order. */
  lemma AddTwice(lists: map<(string, string), seq<string>>, propertyId: string, userId: string, f: string, g: string)
    ensures var once := AfterAdd(lists, propertyId, userId, f);
            AfterAdd(once, propertyId, userId, g)[(propertyId, userId)]
              == AppendFeature(Existing(lists, propertyId, userId), f) + [g]
  {
  }

  /** `onSubmit`: a read error other than "no rows" or a failed upsert
      leaves the lists alone; otherwise the list is replaced by the one with
      the feature appended. */
  method SubmitFeature(db: Database, propertyId: string, userId: string, feature: string,
                       readFails: bool, upsertFails: bool)
    returns (ok: bool)
    modifies db`featureLists
    ensures ok <==> ValidFeature(feature) && !readFails && !upsertFails
    ensures ok ==> db.featureLists == AfterAdd(old(db.featureLists), propertyId, userId, feature)
    ensures !ok ==> db.featureLists == old(db.featureLists)
  {
    if !ValidFeature(feature) || readFails {
      return false;
    }
    var existing := Existing(db.featureLists, propertyId, userId);
    var updated := AppendFeature(existing, feature);
    if upsertFails {
      return false;
    }
    db.featureLists := db.featureLists[(propertyId, userId) := updated];
    return true;
  }
}
