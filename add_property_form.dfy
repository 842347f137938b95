/** The add-property form: scrape the listing URL, insert the property with
    the scraped values (or their defaults), store the final image URL, and
    seed initial ratings for every primary user. Any failure before the
    property is stored switches the page to the manual form. */
module AddPropertyForm {
  import opened Common
  import opened Store
  import RatingUtils
  import Scrape

  /** The scrape answer as the form reads it: any field may be missing. */
  datatype ScrapedFields = ScrapedFields(
    imageUrl: Option<string>, price: Option<real>, description: Option<string>,
    location: Option<string>, bedrooms: Option<int>, dateOnSale: Option<string>,
    estateAgent: Option<string>, reduced: Option<bool>, views: Option<bool>,
    gardens: Option<bool>, outbuildings: Option<bool>, condition: Option<string>,
    features: Option<seq<string>>)

  /** `text || fallback`: a missing or empty text gives the fallback. */
  function TextOr(v: Option<string>, fallback: string): (r: string)
    ensures v.Some? && v.value != "" ==> r == v.value
    ensures v.None? || v.value == "" ==> r == fallback
  {
    if v.Some? && v.value != "" then v.value else fallback
  }

  /** `flag || false`. */
  function FlagOr(v: Option<bool>): (r: bool)
    ensures r <==> v == Some(true)
  {
    v.Some? && v.value
  }

  /** `n || 0`: a missing number is zero (a zero stays zero). */
  function RealOrZero(v: Option<real>): (r: real)
    ensures v.Some? ==> r == v.value
    ensures v.None? ==> r == 0.0
  {
    if v.Some? then v.value else 0.0
  }

  function IntOrZero(v: Option<int>): (r: int)
    ensures v.Some? ==> r == v.value
    ensures v.None? ==> r == 0
  {
    if v.Some? then v.value else 0
  }

  /** The row first inserted: the scraped values with their defaults, the
      date defaulting to today, and an empty image URL. An array is never
      falsy, so a present feature list is kept even when empty. */
  function NewRow(url: string, data: ScrapedFields, today: string, id: string, userId: string): (p: PropertyRow)
    ensures p.id == id && p.url == url && p.addedBy == userId && p.imageUrl == ""
    ensures p.dateOnSale == Some(TextOr(data.dateOnSale, today))
    ensures p.estateAgent == TextOr(data.estateAgent, "Unknown") && p.condition == TextOr(data.condition, "Unknown")
    ensures p.features == (if data.features.Some? then data.features.value else [])
    ensures p.price == RealOrZero(data.price) && p.bedrooms == IntOrZero(data.bedrooms)
    ensures p.description == TextOr(data.description, "") && p.location == TextOr(data.location, "")
    ensures p.reduced == FlagOr(data.reduced) && p.views == FlagOr(data.views)
            && p.gardens == FlagOr(data.gardens) && p.outbuildings == FlagOr(data.outbuildings)
  {
    PropertyRow(id, url, "", RealOrZero(data.price), TextOr(data.description, ""), TextOr(data.location, ""),
                IntOrZero(data.bedrooms), Some(TextOr(data.dateOnSale, today)),
                TextOr(data.estateAgent, "Unknown"), FlagOr(data.reduced), FlagOr(data.views),
                FlagOr(data.gardens), FlagOr(data.outbuildings), TextOr(data.condition, "Unknown"),
                if data.features.Some? then data.features.value else [], userId)
  }

  /** The answer of the scrape function, as the form receives it. */
  function FromScrape(d: Scrape.PropertyData): ScrapedFields
  {
    ScrapedFields(Some(d.imageUrl), Some(d.price), Some(d.description), Some(d.location),
                  Some(d.bedrooms), Some(d.dateOnSale), Some(d.estateAgent), Some(d.reduced),
                  Some(d.views), Some(d.gardens), Some(d.outbuildings), Some(d.condition),
                  Some(d.features))
  }

  /** A record the scrape function assembled is stored as it came: the
      defaults the form applies are the ones the scrape function already
      applied, so nothing is replaced. */
  lemma ScrapedRecordStoredAsIs(url: string, s: Scrape.Scraped, imageUrl: string, nowIso: string,
                                today: string, id: string, userId: string)
    requires Scrape.DatePart(nowIso) != ""
    ensures var d := Scrape.Assemble(s, imageUrl, Scrape.DatePart(nowIso));
            var p := NewRow(url, FromScrape(d), today, id, userId);
            p.price == d.price && p.description == d.description && p.location == d.location
            && p.bedrooms == d.bedrooms && p.dateOnSale == Some(d.dateOnSale)
            && p.estateAgent == d.estateAgent && p.condition == "Unknown" && p.features == []
            && !p.reduced && !p.views && !p.gardens && !p.outbuildings
  {
  }

  /** What became of the optional image file. */
  datatype Upload = NoFile | UploadFailed | Uploaded(publicUrl: string)

  const ResizeSuffix := "?resize=300x200"

  /** The image URL to store: an uploaded file's public URL with the resize
      suffix, else the scraped image URL, else the empty text. */
  function FinalImage(scraped: Option<string>, upload: Upload): (r: string)
    ensures upload.Uploaded? ==> r == upload.publicUrl + ResizeSuffix
    ensures !upload.Uploaded? ==> r == TextOr(scraped, "")
  {
    if upload.Uploaded? then upload.publicUrl + ResizeSuffix else TextOr(scraped, "")
  }

  /** An uploaded image always wins, and its URL is never empty, so it is
      always written back; without an upload the image is written back
      exactly when the scrape found one. */
  lemma ImageWrittenBack(scraped: Option<string>, upload: Upload)
    ensures upload.Uploaded? ==> FinalImage(scraped, upload) != ""
    ensures !upload.Uploaded? ==> (FinalImage(scraped, upload) != "" <==> scraped.Some? && scraped.value != "")
    ensures upload.Uploaded? ==> FinalImage(scraped, upload)[..|upload.publicUrl|] == upload.publicUrl
  {
    if upload.Uploaded? {
      assert |FinalImage(scraped, upload)| == |upload.publicUrl| + |ResizeSuffix|;
    }
  }

  /** `update({ image_url }).eq('id', id)`: every row with that id gets the
      URL; no other row changes. */
  function WithImage(props: seq<PropertyRow>, id: string, url: string): (r: seq<PropertyRow>)
    ensures |r| == |props|
    ensures forall k :: 0 <= k < |props| ==> r[k].id == props[k].id
    ensures forall k :: 0 <= k < |props| && props[k].id != id ==> r[k] == props[k]
    ensures forall k :: 0 <= k < |props| && props[k].id == id ==> r[k] == props[k].(imageUrl := url)
  {
    Map(props, (p: PropertyRow) => if p.id == id then p.(imageUrl := url) else p)
  }

  /** The property table after the insert and the optional image update. */
  function StoredProperties(props: seq<PropertyRow>, row: PropertyRow, image: string, updateFails: bool)
    : seq<PropertyRow>
  {
    if image != "" && !updateFails then WithImage(props + [row], row.id, image) else props + [row]
  }

  /** When the new id is fresh, the earlier rows are kept unchanged and a
      lookup by the new id finds the inserted row, carrying the final image
      exactly when the update was made and succeeded. */
  lemma NewPropertyFound(props: seq<PropertyRow>, row: PropertyRow, image: string, updateFails: bool)
    requires forall q :: q in props ==> q.id != row.id
    ensures var after := StoredProperties(props, row, image, updateFails);
            after[..|props|] == props
            && PropertyById(after, row.id)
               == Some(if image != "" && !updateFails then row.(imageUrl := image) else row)
  {
    var after := StoredProperties(props, row, image, updateFails);
    var stored := if image != "" && !updateFails then row.(imageUrl := image) else row;
    assert after == props + [stored] by {
      assert |after| == |props + [stored]|;
      forall k | 0 <= k < |after|
        ensures after[k] == (props + [stored])[k]
      {
        if k < |props| {
          assert (props + [row])[k] == props[k];
        }
      }
    }
    PropertyByIdFresh(props, stored);
  }

  /** The rows each primary user's population adds, in user order. */
  function Populations(props: seq<PropertyRow>, priorities: seq<Priority>, criteria: seq<Criterion>,
                       propertyId: string, ids: seq<string>, faultsFor: string -> RatingUtils.PopulateFaults)
    : (r: seq<seq<RatingRow>>)
    ensures |r| == |ids|
  {
    if ids == [] then []
    else [RatingUtils.PopulatedRows(props, priorities, criteria, propertyId, ids[0], faultsFor(ids[0]))]
         + Populations(props, priorities, criteria, propertyId, ids[1..], faultsFor)
  }

  /** Block `k` is what the call for the `k`-th user adds, under that
      user's own outcome. */
  lemma {:induction false} PopulationsAt(props: seq<PropertyRow>, priorities: seq<Priority>, criteria: seq<Criterion>,
                                         propertyId: string, ids: seq<string>,
                                         faultsFor: string -> RatingUtils.PopulateFaults, k: nat)
    requires k < |ids|
    ensures Populations(props, priorities, criteria, propertyId, ids, faultsFor)[k]
            == RatingUtils.PopulatedRows(props, priorities, criteria, propertyId, ids[k], faultsFor(ids[k]))
  {
    if k > 0 {
      PopulationsAt(props, priorities, criteria, propertyId, ids[1..], faultsFor, k - 1);
    }
  }

  /** Every rating row the loop adds belongs to the new property and to one
      of the primary users, and scores at most 100. */
  lemma AddedRowsShape(props: seq<PropertyRow>, priorities: seq<Priority>, criteria: seq<Criterion>,
                       propertyId: string, ids: seq<string>, faultsFor: string -> RatingUtils.PopulateFaults)
    ensures forall x :: x in Flatten(Populations(props, priorities, criteria, propertyId, ids, faultsFor)) ==>
              x.propertyId == propertyId && x.userId in ids && x.score <= 100
  {
    var blocks := Populations(props, priorities, criteria, propertyId, ids, faultsFor);
    forall x: RatingRow | x in Flatten(blocks)
      ensures x.propertyId == propertyId && x.userId in ids && x.score <= 100
    {
      var k := FlattenMember(blocks, x);
      PopulationsAt(props, priorities, criteria, propertyId, ids, faultsFor, k);
      RatingUtils.PopulatedRowsShape(props, priorities, criteria, propertyId, ids[k], faultsFor(ids[k]));
    }
  }

  /** A failure while seeding one user's ratings does not stop the others:
      whatever happens for the other users, a user whose own fetches and
      inserts succeed gets one row for each of their criteria. */
  lemma EveryHealthyUserRated(props: seq<PropertyRow>, priorities: seq<Priority>, criteria: seq<Criterion>,
                              propertyId: string, ids: seq<string>,
                              faultsFor: string -> RatingUtils.PopulateFaults, u: string, c: Criterion)
    requires PropertyById(props, propertyId).Some?
    requires u in ids && faultsFor(u) == RatingUtils.PopulateFaults(false, false, false, {})
    requires c in CriteriaOf(criteria, u)
    ensures exists x :: x in Flatten(Populations(props, priorities, criteria, propertyId, ids, faultsFor))
                        && x.userId == u && x.propertyId == propertyId && x.ratingId == c.id
  {
    var blocks := Populations(props, priorities, criteria, propertyId, ids, faultsFor);
    var k :| 0 <= k < |ids| && ids[k] == u;
    PopulationsAt(props, priorities, criteria, propertyId, ids, faultsFor, k);
    RatingUtils.OneRowPerCriterion(props, priorities, criteria, propertyId, u);
    var cs := CriteriaOf(criteria, u);
    var j :| 0 <= j < |cs| && cs[j] == c;
    var x := blocks[k][j];
    InFlatten(blocks, k, x);
  }

  /** The call for the `i`-th primary user appends that user's block. */
  method SeedUser(db: Database, ghost blocks: seq<seq<RatingRow>>, ids: seq<string>, i: nat,
                  propertyId: string, faultsFor: string -> RatingUtils.PopulateFaults)
    requires i < |ids| && blocks == Populations(db.properties, db.priorities, db.criteria, propertyId, ids, faultsFor)
    modifies db`ratings
    ensures db.ratings == old(db.ratings) + blocks[i]
  {
    RatingUtils.PopulateInitialRatings(db, propertyId, ids[i], faultsFor(ids[i]));
    PopulationsAt(db.properties, db.priorities, db.criteria, propertyId, ids, faultsFor, i);
  }

  /** The loop over the primary users: one `populateInitialRatings` call per
      user, in order. A call never throws (it logs its own failures), so
      every user is reached. */
  method SeedPrimaryUsers(db: Database, propertyId: string, faultsFor: string -> RatingUtils.PopulateFaults)
    modifies db`ratings
    ensures db.ratings == old(db.ratings)
              + Flatten(Populations(db.properties, db.priorities, db.criteria, propertyId, PrimaryIds(db.users), faultsFor))
  {
    var ids := PrimaryIds(db.users);
    ghost var blocks := Populations(db.properties, db.priorities, db.criteria, propertyId, ids, faultsFor);
    for i := 0 to |ids|
      invariant db.ratings == old(db.ratings) + Flatten(blocks[..i])
    {
      SeedUser(db, blocks, ids, i, propertyId, faultsFor);
      assert blocks[..i + 1] == blocks[..i] + [blocks[i]];
      FlattenSnoc(blocks[..i], blocks[i]);
    }
    assert blocks[..|ids|] == blocks;
  }

  /** How the submission ended. */
  datatype Outcome = Rejected | ManualFormShown | PropertyAdded

  class AddPanel {
    var showManualForm: bool

    constructor ()
      ensures !showManualForm
    {
      showManualForm := false;
    }

    /** `onSubmit`, behind the form's schema: a URL that `isUrl` rejects
        never reaches it, and nothing happens. `data` is `None` when the
        scrape call failed. The
        property is inserted with an empty image URL; the final image URL
        is then written back when it is non-empty (a failed update is only
        logged). A failed fetch of the primary users skips the seeding; the
        submission still succeeds. */
    method Submit(db: Database, url: string, isUrl: string -> bool, data: Option<ScrapedFields>, today: string,
                  newId: string, userId: string, insertFails: bool, upload: Upload, updateFails: bool,
                  usersFail: bool, faultsFor: string -> RatingUtils.PopulateFaults)
      returns (outcome: Outcome)
      modifies this`showManualForm, db`properties, db`ratings
      ensures outcome == Rejected <==> !isUrl(url)
      ensures outcome == Rejected ==>
                showManualForm == old(showManualForm) && db.properties == old(db.properties) && db.ratings == old(db.ratings)
      ensures outcome == ManualFormShown <==> isUrl(url) && (data.None? || insertFails)
      ensures outcome == ManualFormShown ==>
                showManualForm && db.properties == old(db.properties) && db.ratings == old(db.ratings)
      ensures outcome == PropertyAdded ==>
                showManualForm == old(showManualForm)
                && db.properties == StoredProperties(old(db.properties), NewRow(url, data.value, today, newId, userId),
                                                     FinalImage(data.value.imageUrl, upload), updateFails)
                && db.ratings == old(db.ratings)
                   + (if usersFail then []
                      else Flatten(Populations(db.properties, db.priorities, db.criteria, newId,
                                               PrimaryIds(db.users), faultsFor)))
    {
      if !isUrl(url) {
        return Rejected;
      }
      if data.None? || insertFails {
        showManualForm := true;
        return ManualFormShown;
      }
      var row := NewRow(url, data.value, today, newId, userId);
      db.properties := db.properties + [row];
      var image := FinalImage(data.value.imageUrl, upload);
      if image != "" && !updateFails {
        db.properties := WithImage(db.properties, newId, image);
      }
      if !usersFail {
        SeedPrimaryUsers(db, newId, faultsFor);
      }
      return PropertyAdded;
    }
  }
}
