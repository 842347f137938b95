/** The dashboard: the loaded property list with each property's combined
    score, the filter panel's four filters, the descending sort by score and
    the card layout by rank. */
module DashboardPage {
  import opened Common
  import opened Store

  /** A property as the dashboard holds it, with its combined score. */
  datatype Listing = Listing(property: PropertyRow, combinedScore: real)

  /** The scores that `property_scores?.[0]` can reach for one property.
      A list embed holds the property's row, at most one since the table is
      unique per property. An object embed has no element 0, so nothing is
      reached even when a score is stored. */
  function ScoreEntries(embed: ScoreEmbed, scores: map<string, real>, propertyId: string): (r: seq<real>)
    ensures |r| <= 1
    ensures r == [] <==> embed.SingleObject? || propertyId !in scores
    ensures r != [] ==> r[0] == scores[propertyId]
  {
    if embed.RowList? && propertyId in scores then [scores[propertyId]] else []
  }

  /** `p.property_scores?.[0]?.combined_score || 0`. */
  function CombinedScoreOf(entries: seq<real>): (s: real)
    ensures entries == [] ==> s == 0.0
    ensures entries != [] ==> s == entries[0]
  {
    if entries == [] then 0.0 else entries[0]
  }

  function ToListing(embed: ScoreEmbed, scores: map<string, real>, p: PropertyRow): Listing
  {
    Listing(p, CombinedScoreOf(ScoreEntries(embed, scores, p.id)))
  }

  /** `data.map(...)`: every loaded property with its combined score. */
  function Listings(embed: ScoreEmbed, scores: map<string, real>, props: seq<PropertyRow>): (r: seq<Listing>)
    ensures |r| == |props|
    ensures forall i :: 0 <= i < |props| ==> r[i] == ToListing(embed, scores, props[i])
  {
    Map(props, (p: PropertyRow) => ToListing(embed, scores, p))
  }

  /** With a list embed a loaded property carries its stored score, or 0
      when none is stored. With an object embed it carries 0 whatever is
      stored. */
  lemma LoadedScore(embed: ScoreEmbed, scores: map<string, real>, p: PropertyRow)
    ensures ToListing(embed, scores, p).property == p
    ensures embed.RowList? && p.id in scores ==> ToListing(embed, scores, p).combinedScore == scores[p.id]
    ensures embed.RowList? && p.id !in scores ==> ToListing(embed, scores, p).combinedScore == 0.0
    ensures embed.SingleObject? ==> ToListing(embed, scores, p).combinedScore == 0.0
  {
  }

  /** With an object embed every loaded listing scores 0, so no order by
      score separates them. */
  lemma ObjectEmbedScoresZero(scores: map<string, real>, props: seq<PropertyRow>)
    ensures forall l :: l in Listings(SingleObject, scores, props) ==> l.combinedScore == 0.0
    ensures ByScoreDescending(Listings(SingleObject, scores, props))
    ensures SameScores(Listings(SingleObject, scores, props))
  {
  }

  // ---------------------------------------------------------------------
  // Filters
  // ---------------------------------------------------------------------

  /** The filter panel's values; an absent field is `None`. A filter whose
      value is absent, empty or 0 is off. */
  datatype Filters = Filters(location: Option<string>, bedrooms: Option<int>,
                             priceMin: Option<real>, priceMax: Option<real>)

  predicate LocationOn(f: Filters) { f.location.Some? && f.location.value != "" }
  predicate BedroomsOn(f: Filters) { f.bedrooms.Some? && f.bedrooms.value != 0 }
  predicate PriceMinOn(f: Filters) { f.priceMin.Some? && f.priceMin.value != 0.0 }
  predicate PriceMaxOn(f: Filters) { f.priceMax.Some? && f.priceMax.value != 0.0 }

  /** The location contains the typed text, ignoring case. */
  function LocationKeeps(text: string): Listing -> bool
  {
    (l: Listing) => Includes(Lower(l.property.location), Lower(text))
  }

  /** A bedrooms choice of 3 means "3 or more"; any other is exact. */
  function BedroomsKeeps(n: int): Listing -> bool
  {
    (l: Listing) => if n == 3 then l.property.bedrooms >= 3 else l.property.bedrooms == n
  }

  function AtLeast(min: real): Listing -> bool
  {
    (l: Listing) => l.property.price >= min
  }

  function AtMost(max: real): Listing -> bool
  {
    (l: Listing) => l.property.price <= max
  }

  /** The first `n` of the four filters, in the order they are applied,
      keep `l`. */
  predicate PassesFirst(f: Filters, n: nat, l: Listing)
  {
    (n < 1 || !LocationOn(f) || LocationKeeps(f.location.value)(l))
    && (n < 2 || !BedroomsOn(f) || BedroomsKeeps(f.bedrooms.value)(l))
    && (n < 3 || !PriceMinOn(f) || AtLeast(f.priceMin.value)(l))
    && (n < 4 || !PriceMaxOn(f) || AtMost(f.priceMax.value)(l))
  }

  function PassesFirstSel(f: Filters, n: nat): Listing -> bool
  {
    (l: Listing) => PassesFirst(f, n, l)
  }

  /** A listing is shown when every filter that is on keeps it. */
  predicate Shown(f: Filters, l: Listing)
  {
    PassesFirst(f, 4, l)
  }

  function ShownSel(f: Filters): Listing -> bool
  {
    PassesFirstSel(f, 4)
  }

  /** The location filter keeps a listing exactly when the lower-cased
      location contains the lower-cased text, so the case of the typed text
      does not matter. */
  lemma LocationIgnoresCase(f: Filters, l: Listing)
    requires LocationOn(f)
    ensures PassesFirst(f, 1, l) <==> Includes(Lower(l.property.location), Lower(f.location.value))
    ensures LocationKeeps(f.location.value)(l) == LocationKeeps(Lower(f.location.value))(l)
  {
    LowerIdempotent(f.location.value);
  }

  /** Bedrooms 3 keeps every listing with 3 or more; another non-zero value
      keeps exactly that count; 0 or absent keeps everything. */
  lemma BedroomsRule(f: Filters, l: Listing)
    ensures f.bedrooms == Some(3) ==> (PassesFirst(f, 2, l) == (PassesFirst(f, 1, l) && l.property.bedrooms >= 3))
    ensures f.bedrooms.Some? && f.bedrooms.value != 3 && f.bedrooms.value != 0 ==>
              (PassesFirst(f, 2, l) == (PassesFirst(f, 1, l) && l.property.bedrooms == f.bedrooms.value))
    ensures !BedroomsOn(f) ==> PassesFirst(f, 2, l) == PassesFirst(f, 1, l)
  {
  }

  /** Each stage of the filter handler narrows the list kept by the stages
      before it by that stage's own filter, when it is on. */
  lemma LocationStage(ls: seq<Listing>, f: Filters)
    ensures Filter(ls, PassesFirstSel(f, 1))
            == if LocationOn(f) then Filter(Filter(ls, PassesFirstSel(f, 0)), LocationKeeps(f.location.value))
               else Filter(ls, PassesFirstSel(f, 0))
  {
    if LocationOn(f) {
      FilterFilter(ls, PassesFirstSel(f, 0), LocationKeeps(f.location.value), PassesFirstSel(f, 1));
    } else {
      FilterExt(ls, PassesFirstSel(f, 0), PassesFirstSel(f, 1));
    }
  }

  lemma BedroomsStage(ls: seq<Listing>, f: Filters)
    ensures Filter(ls, PassesFirstSel(f, 2))
            == if BedroomsOn(f) then Filter(Filter(ls, PassesFirstSel(f, 1)), BedroomsKeeps(f.bedrooms.value))
               else Filter(ls, PassesFirstSel(f, 1))
  {
    if BedroomsOn(f) {
      FilterFilter(ls, PassesFirstSel(f, 1), BedroomsKeeps(f.bedrooms.value), PassesFirstSel(f, 2));
    } else {
      FilterExt(ls, PassesFirstSel(f, 1), PassesFirstSel(f, 2));
    }
  }

  lemma PriceMinStage(ls: seq<Listing>, f: Filters)
    ensures Filter(ls, PassesFirstSel(f, 3))
            == if PriceMinOn(f) then Filter(Filter(ls, PassesFirstSel(f, 2)), AtLeast(f.priceMin.value))
               else Filter(ls, PassesFirstSel(f, 2))
  {
    if PriceMinOn(f) {
      FilterFilter(ls, PassesFirstSel(f, 2), AtLeast(f.priceMin.value), PassesFirstSel(f, 3));
    } else {
      FilterExt(ls, PassesFirstSel(f, 2), PassesFirstSel(f, 3));
    }
  }

  lemma PriceMaxStage(ls: seq<Listing>, f: Filters)
    ensures Filter(ls, PassesFirstSel(f, 4))
            == if PriceMaxOn(f) then Filter(Filter(ls, PassesFirstSel(f, 3)), AtMost(f.priceMax.value))
               else Filter(ls, PassesFirstSel(f, 3))
  {
    if PriceMaxOn(f) {
      FilterFilter(ls, PassesFirstSel(f, 3), AtMost(f.priceMax.value), PassesFirstSel(f, 4));
    } else {
      FilterExt(ls, PassesFirstSel(f, 3), PassesFirstSel(f, 4));
    }
  }

  /** The price bounds are inclusive, and each is off when 0 or absent. */
  lemma PriceBoundsInclusive(f: Filters, l: Listing)
    ensures PriceMinOn(f) ==> (PassesFirst(f, 3, l) == (PassesFirst(f, 2, l) && l.property.price >= f.priceMin.value))
    ensures PriceMaxOn(f) ==> (PassesFirst(f, 4, l) == (PassesFirst(f, 3, l) && l.property.price <= f.priceMax.value))
    ensures !PriceMinOn(f) ==> PassesFirst(f, 3, l) == PassesFirst(f, 2, l)
    ensures !PriceMaxOn(f) ==> PassesFirst(f, 4, l) == PassesFirst(f, 3, l)
  {
  }

  /** With every filter off, everything is shown. */
  lemma NoFiltersShowAll(props: seq<Listing>)
    ensures Filter(props, ShownSel(Filters(None, None, None, None))) == props
  {
    FilterAll(props, ShownSel(Filters(None, None, None, None)));
  }

  /** Filtering the shown list again by the same filters changes nothing. */
  lemma FilterAgainIsIdle(f: Filters, props: seq<Listing>)
    ensures Filter(Filter(props, ShownSel(f)), ShownSel(f)) == Filter(props, ShownSel(f))
  {
    FilterFilter(props, ShownSel(f), ShownSel(f), ShownSel(f));
  }

  // ---------------------------------------------------------------------
  // Order and layout
  // ---------------------------------------------------------------------

  /** Display order: combined scores never increase along the list. */
  predicate ByScoreDescending(s: seq<Listing>)
  {
    forall i, j :: 0 <= i < j < |s| ==> s[i].combinedScore >= s[j].combinedScore
  }

  /** Every listing has the same score, so no two are out of order. */
  predicate SameScores(s: seq<Listing>)
  {
    forall i, j :: 0 <= i < j < |s| ==> s[i].combinedScore == s[j].combinedScore
  }

  datatype Span = Full | Half | Default

  /** The first card spans the whole row, the next two half of it, the rest
      one column. */
  function CardSpan(rank: nat): (s: Span)
    ensures s == Full <==> rank == 0
    ensures s == Half <==> rank == 1 || rank == 2
    ensures s == Default <==> rank >= 3
  {
    if rank == 0 then Full else if rank < 3 then Half else Default
  }

  datatype Card = Card(listing: Listing, span: Span)

  /** The top card of a list in display order has the highest score. */
  lemma TopCardIsBest(s: seq<Listing>, l: Listing)
    requires ByScoreDescending(s) && l in s
    ensures s[0].combinedScore >= l.combinedScore
  {
  }

  /** `a.sort((x, y) => y.combined_score - x.combined_score)`, in place. */
  method SortByScore(a: array<Listing>)
    modifies a
    ensures ByScoreDescending(a[..])
    ensures multiset(a[..]) == multiset(old(a[..]))
    ensures SameScores(old(a[..])) ==> a[..] == old(a[..])
  {
    var i := 0;
    while i < a.Length
      invariant 0 <= i <= a.Length
      invariant ByScoreDescending(a[..i])
      invariant multiset(a[..]) == multiset(old(a[..]))
      invariant SameScores(old(a[..])) ==> a[..] == old(a[..])
    {
      InsertAt(a, i);
      i := i + 1;
    }
    assert a[..a.Length] == a[..];
  }

  /** Moves `a[i]` left past every neighbour with a lower score, extending
      the sorted prefix by one. */
  method InsertAt(a: array<Listing>, i: nat)
    requires i < a.Length && ByScoreDescending(a[..i])
    modifies a
    ensures ByScoreDescending(a[..i + 1])
    ensures multiset(a[..]) == multiset(old(a[..]))
    ensures SameScores(old(a[..])) ==> a[..] == old(a[..])
  {
    var j := i;
    while j > 0 && a[j - 1].combinedScore < a[j].combinedScore
      invariant 0 <= j <= i
      invariant forall m, n :: 0 <= m < n <= i && m != j && n != j ==> a[m].combinedScore >= a[n].combinedScore
      invariant forall n :: j < n <= i ==> a[j].combinedScore > a[n].combinedScore
      invariant multiset(a[..]) == multiset(old(a[..]))
      invariant SameScores(old(a[..])) ==> a[..] == old(a[..])
    {
      Swap(a, j - 1, j);
      j := j - 1;
    }
  }

  method Swap(a: array<Listing>, i: nat, j: nat)
    requires i < j < a.Length
    modifies a
    ensures a[..] == old(a[..])[i := old(a[j])][j := old(a[i])]
    ensures multiset(a[..]) == multiset(old(a[..]))
  {
    a[i], a[j] := a[j], a[i];
  }

  class Dashboard {
    /** The shared store's property list. */
    var properties: seq<Listing>
    /** The list the page shows. */
    var filtered: seq<Listing>
    /** Both lists are the one array the last load produced, so sorting the
        shown list in place reorders the store's list too. */
    var aliased: bool

    /** While the two lists share one array they hold the same listings in
        the same order. */
    predicate Valid()
      reads this
    {
      aliased ==> properties == filtered
    }

    constructor ()
      ensures properties == [] && filtered == [] && !aliased
      ensures Valid()
    {
      properties, filtered, aliased := [], [], false;
    }

    /** `fetchProperties`: on success both lists become the one array of
        loaded properties, each with its combined score; on error nothing
        changes. */
    method FetchProperties(db: Database, fails: bool)
      modifies this
      ensures fails ==> properties == old(properties) && filtered == old(filtered) && aliased == old(aliased)
      ensures !fails ==> properties == filtered == Listings(db.scoreEmbed, db.scores, db.properties) && aliased
      ensures old(Valid()) ==> Valid()
    {
      if fails {
        return;
      }
      var mapped := Listings(db.scoreEmbed, db.scores, db.properties);
      properties := mapped;
      filtered := mapped;
      aliased := true;
    }

    /** `handleFilter`: start from a copy of the store's list and apply each
        filter that is on; the store's list itself is left alone, and the
        shown list no longer shares its array. */
    method HandleFilter(f: Filters)
      modifies this`filtered, this`aliased
      ensures filtered == Filter(properties, ShownSel(f))
      ensures IsSubsequence(filtered, properties)
      ensures forall l :: l in filtered <==> l in properties && Shown(f, l)
      ensures !aliased && Valid()
    {
      var result := properties;
      FilterAll(properties, PassesFirstSel(f, 0));
      LocationStage(properties, f);
      if LocationOn(f) {
        result := Filter(result, LocationKeeps(f.location.value));
      }
      BedroomsStage(properties, f);
      if BedroomsOn(f) {
        result := Filter(result, BedroomsKeeps(f.bedrooms.value));
      }
      PriceMinStage(properties, f);
      if PriceMinOn(f) {
        result := Filter(result, AtLeast(f.priceMin.value));
      }
      PriceMaxStage(properties, f);
      if PriceMaxOn(f) {
        result := Filter(result, AtMost(f.priceMax.value));
      }
      filtered := result;
      aliased := false;
      FilterIsSubsequence(properties, ShownSel(f));
    }

    /** The render: the shown list is sorted in place by descending score,
        and card `i` gets the span for rank `i`. While the store's list is the
        same array, it is reordered with it. */
    method Render() returns (cards: seq<Card>)
      modifies this`filtered, this`properties
      ensures multiset(filtered) == multiset(old(filtered))
      ensures ByScoreDescending(filtered)
      ensures SameScores(old(filtered)) ==> filtered == old(filtered)
      ensures aliased ==> properties == filtered
      ensures !aliased ==> properties == old(properties)
      ensures |cards| == |filtered|
      ensures forall i :: 0 <= i < |cards| ==> cards[i] == Card(filtered[i], CardSpan(i))
    {
      var a := new Listing[|filtered|](i requires 0 <= i < |filtered| reads this => filtered[i]);
      assert a[..] == filtered;
      SortByScore(a);
      filtered := a[..];
      if aliased {
        properties := filtered;
      }
      cards := seq(|filtered|, i requires 0 <= i < |filtered| reads this => Card(filtered[i], CardSpan(i)));
    }

    /** `handleDelete`: only a primary user deletes; a successful delete
        removes the property's row and reloads the lists, and a reload that
        fails leaves both lists as they were. */
    method HandleDelete(db: Database, role: Option<Role>, propertyId: string, deleteFails: bool, fetchFails: bool)
      modifies db`properties, this
      ensures role != Some(Primary) || deleteFails ==>
                db.properties == old(db.properties) && properties == old(properties) && filtered == old(filtered)
                && aliased == old(aliased)
      ensures role == Some(Primary) && !deleteFails ==>
                db.properties == Filter(old(db.properties), (p: PropertyRow) => p.id != propertyId)
      ensures role == Some(Primary) && !deleteFails && !fetchFails ==>
                properties == filtered == Listings(db.scoreEmbed, db.scores, db.properties) && aliased
      ensures role == Some(Primary) && !deleteFails && fetchFails ==>
                properties == old(properties) && filtered == old(filtered) && aliased == old(aliased)
      ensures old(Valid()) ==> Valid()
    {
      if role != Some(Primary) || deleteFails {
        return;
      }
      db.properties := Filter(db.properties, (p: PropertyRow) => p.id != propertyId);
      FetchProperties(db, fetchFails);
    }
  }
}
