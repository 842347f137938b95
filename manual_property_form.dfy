/** The manual property form: its validation schema, and the single insert
    its submit makes, with the feature text split on commas and an empty
    date stored as null. */
module ManualPropertyForm {
  import opened Common
  import opened Store

  /** The form values. The optional text fields start as '' and stay
      strings. The number fields hold what `parseFloat` and `parseInt` read
      from the input: `None` for a cleared or non-numeric field (NaN). */
  datatype ManualValues = ManualValues(
    url: string, price: Option<real>, location: string, bedrooms: Option<int>,
    description: string, dateOnSale: string, estateAgent: string,
    reduced: bool, views: bool, gardens: bool, outbuildings: bool,
    condition: string, features: string)

  /** `defaultValues`. */
  const Defaults := ManualValues("", Some(0.0), "", Some(0), "", "", "", false, false, false, false, "", "")

  /** `manualPropertySchema`; whether the URL is well formed is decided by
      `isUrl`. `z.number()` rejects NaN, so both number fields must hold a
      number. */
  predicate Valid(v: ManualValues, isUrl: string -> bool)
  {
    isUrl(v.url) && v.price.Some? && v.price.value >= 0.0 && 1 <= |v.location| <= 100
    && v.bedrooms.Some? && v.bedrooms.value >= 0
    && |v.description| <= 1000 && |v.estateAgent| <= 100 && |v.condition| <= 50
  }

  /** The defaults are not submittable: the location is required. */
  lemma DefaultsInvalid(isUrl: string -> bool)
    ensures !Valid(Defaults, isUrl)
    ensures !Defaults.reduced && !Defaults.views && !Defaults.gardens && !Defaults.outbuildings
  {
  }

  /** A cleared or non-numeric price or bedrooms field keeps the form from
      submitting, whatever the other fields hold. */
  lemma ClearedNumberRejected(v: ManualValues, isUrl: string -> bool)
    ensures !Valid(v.(price := None), isUrl) && !Valid(v.(bedrooms := None), isUrl)
  {
  }

  /** `features ? features.split(',').map(f => f.trim()) : []`. */
  function SplitFeatures(text: string): (r: seq<string>)
    ensures text == "" ==> r == []
  {
    if text == "" then [] else Map(Split(text, ','), Trim)
  }

  /** Non-empty text gives one entry per comma plus one, empty pieces
      included; each entry is the trimmed piece at the same position, so
      order is kept, and no entry contains a comma. */
  lemma SplitFeaturesShape(text: string)
    requires text != ""
    ensures |SplitFeatures(text)| == CountChar(text, ',') + 1
    ensures forall k :: 0 <= k < |SplitFeatures(text)| ==> SplitFeatures(text)[k] == Trim(Split(text, ',')[k])
    ensures forall k :: 0 <= k < |SplitFeatures(text)| ==> ',' !in SplitFeatures(text)[k]
  {
    var pieces := Split(text, ',');
    var r := SplitFeatures(text);
    assert r == Map(pieces, Trim);
    SplitShape(text, ',');
    forall k | 0 <= k < |r|
      ensures ',' !in r[k]
    {
      TrimKeepsOnly(pieces[k]);
    }
  }

  /** Every entry is trimmed: it neither starts nor ends with whitespace. */
  lemma FeaturesTrimmed(text: string)
    ensures forall k :: 0 <= k < |SplitFeatures(text)| && SplitFeatures(text)[k] != "" ==>
              !IsJsSpace(SplitFeatures(text)[k][0]) && !IsJsSpace(SplitFeatures(text)[k][|SplitFeatures(text)[k]| - 1])
  {
    var pieces := Split(text, ',');
    var r := SplitFeatures(text);
    forall k | 0 <= k < |r| && r[k] != ""
      ensures !IsJsSpace(r[k][0]) && !IsJsSpace(r[k][|r[k]| - 1])
    {
      assert r[k] == Trim(pieces[k]);
      TrimIsCore(pieces[k]);
    }
  }

  /** A list of trimmed entries without commas, written with commas, reads
      back as the same list (unless it is the single empty entry, which is
      written as the empty text). */
  lemma FeaturesRoundTrip(features: seq<string>)
    requires |features| >= 1 && features != [""]
    requires forall k :: 0 <= k < |features| ==> ',' !in features[k] && Trim(features[k]) == features[k]
    ensures SplitFeatures(Join(features, ',')) == features
  {
    SplitJoin(features, ',');
    if Join(features, ',') == "" {
      JoinEmpty(features);
      assert false;
    }
  }

  /** Only the single empty piece joins to the empty text. */
  lemma JoinEmpty(parts: seq<string>)
    requires |parts| >= 1 && Join(parts, ',') == ""
    ensures parts == [""]
  {
  }

  /** `date_on_sale || null`. */
  function StoredDate(date: string): (r: Option<string>)
    ensures r.None? <==> date == ""
    ensures r.Some? ==> r.value == date
  {
    if date == "" then None else Some(date)
  }

  /** The row the submit inserts; the image is not part of this form. */
  function BuildRow(v: ManualValues, id: string, userId: string): (p: PropertyRow)
    requires v.price.Some? && v.bedrooms.Some?
    ensures p.price == v.price.value && p.bedrooms == v.bedrooms.value
    ensures p.id == id && p.addedBy == userId && p.url == v.url
    ensures p.dateOnSale == StoredDate(v.dateOnSale) && p.features == SplitFeatures(v.features)
    ensures p.reduced == v.reduced && p.views == v.views && p.gardens == v.gardens && p.outbuildings == v.outbuildings
  {
    PropertyRow(id, v.url, "", v.price.value, v.description, v.location, v.bedrooms.value,
                StoredDate(v.dateOnSale), v.estateAgent, v.reduced, v.views, v.gardens, v.outbuildings,
                v.condition, SplitFeatures(v.features), userId)
  }

  /** `onSubmit`: only valid values reach it; one property row is inserted,
      and no rating row is written. */
  method Submit(db: Database, v: ManualValues, isUrl: string -> bool, newId: string, userId: string, insertFails: bool)
    returns (ok: bool)
    modifies db`properties
    ensures ok <==> Valid(v, isUrl) && !insertFails
    ensures ok ==> db.properties == old(db.properties) + [BuildRow(v, newId, userId)]
    ensures !ok ==> db.properties == old(db.properties)
    ensures db.ratings == old(db.ratings)
  {
    if !Valid(v, isUrl) || insertFails {
      return false;
    }
    db.properties := db.properties + [BuildRow(v, newId, userId)];
    return true;
  }
}
