/** The scrape server function: given a listing URL it fetches the page,
    picks a site-specific scraper by URL, reads price, description,
    location, bedrooms and image from the page, and answers a complete
    property record with fixed defaults for what a page never supplies. */
module Scrape {
  import opened Common

  // ---------------------------------------------------------------------
  // Number parsing
  // ---------------------------------------------------------------------

  /** `\d`: an ASCII decimal digit. */
  predicate IsDigit(c: char)
  {
    '0' <= c <= '9'
  }

  /** The characters `[\d.]` keeps. */
  predicate IsPriceChar(c: char)
  {
    IsDigit(c) || c == '.'
  }

  predicate AllDigits(s: string)
  {
    forall c :: c in s ==> IsDigit(c)
  }

  function DigitValue(c: char): nat
    requires IsDigit(c)
  {
    c as int - '0' as int
  }

  /** The value of a string of digits read in base 10. */
  function DecimalValue(ds: string): nat
    requires AllDigits(ds)
  {
    if ds == [] then 0 else 10 * DecimalValue(ds[..|ds| - 1]) + DigitValue(ds[|ds| - 1])
  }

  function Pow10(n: nat): (r: nat)
    ensures r >= 1
  {
    if n == 0 then 1 else 10 * Pow10(n - 1)
  }

  /** `text.replace(/\D/g, '')`. */
  function Digits(text: string): (r: string)
    ensures AllDigits(r)
  {
    Filter(text, IsDigit)
  }

  /** `parseInt(text.replace(/\D/g, ''))`, with NaN (no digit at all) read
      as 0. Every digit of the text counts, wherever it stands. */
  function ParseInteger(text: string): nat
  {
    var ds := Digits(text);
    if ds == [] then 0 else DecimalValue(ds)
  }

  /** The longest prefix made of digits. */
  function LeadingDigits(s: string): (r: string)
    ensures AllDigits(r) && |r| <= |s| && r == s[..|r|]
    ensures |r| < |s| ==> !IsDigit(s[|r|])
  {
    if s != [] && IsDigit(s[0]) then [s[0]] + LeadingDigits(s[1..]) else []
  }

  /** After the whole part: the digits between a leading dot and the next
      non-digit, or nothing when no dot follows. */
  function FractionPart(rest: string): (r: string)
    ensures AllDigits(r)
  {
    if rest != [] && rest[0] == '.' then LeadingDigits(rest[1..]) else []
  }

  /** The number with whole part `whole` and decimal fraction `fraction`;
      NaN (`None`) when both are empty. */
  function DecimalOf(whole: string, fraction: string): (r: Option<real>)
    requires AllDigits(whole) && AllDigits(fraction)
    ensures r.Some? ==> r.value >= 0.0
  {
    if whole == [] && fraction == [] then None
    else
      var part := DecimalValue(fraction) as real / Pow10(|fraction|) as real;
      QuotientNonNegative(DecimalValue(fraction) as real, Pow10(|fraction|) as real);
      Some(DecimalValue(whole) as real + part)
  }

  lemma QuotientNonNegative(a: real, b: real)
    requires a >= 0.0 && b > 0.0
    ensures a / b >= 0.0
  {
  }

  /** `parseFloat` on a string of digits and dots: the digits before the
      first dot, then the digits between the first dot and the next one
      (read as a fraction). */
  function ParseDecimal(cleaned: string): (r: Option<real>)
    ensures r.Some? ==> r.value >= 0.0
  {
    var whole := LeadingDigits(cleaned);
    DecimalOf(whole, FractionPart(cleaned[|whole|..]))
  }

  /** `text.replace(/[^\d.]/g, '')`. */
  function CleanPrice(text: string): (r: string)
    ensures forall c :: c in r ==> IsPriceChar(c)
  {
    Filter(text, IsPriceChar)
  }

  /** `parsePrice`: drop everything but digits and dots, parse what is left,
      and read NaN as 0. */
  function ParsePrice(text: string): (r: real)
    ensures r >= 0.0
  {
    match ParseDecimal(CleanPrice(text))
    case None => 0.0
    case Some(v) => v
  }

  /** A number's decimal digits, without leading zeros. */
  function NatToString(n: nat): (r: string)
    ensures AllDigits(r) && |r| >= 1
  {
    if n < 10 then [('0' as int + n) as char]
    else NatToString(n / 10) + [('0' as int + n % 10) as char]
  }

  lemma {:induction false} DecimalOfNatToString(n: nat)
    ensures DecimalValue(NatToString(n)) == n
  {
    if n >= 10 {
      var s := NatToString(n);
      DecimalOfNatToString(n / 10);
      assert s[..|s| - 1] == NatToString(n / 10);
    }
  }

  /** Reading back a number written in decimal gives the number. */
  lemma ParseIntegerRoundTrip(n: nat)
    ensures ParseInteger(NatToString(n)) == n
  {
    FilterAll(NatToString(n), IsDigit);
    DecimalOfNatToString(n);
  }

  /** Dropping the non-digits first changes nothing. */
  lemma ParseIntegerOfDigits(text: string)
    ensures ParseInteger(Digits(text)) == ParseInteger(text)
  {
    FilterFilter(text, IsDigit, IsDigit, IsDigit);
  }

  lemma {:induction false} LeadingDigitsOfDigits(s: string)
    requires AllDigits(s)
    ensures LeadingDigits(s) == s
  {
    if s != [] {
      assert s[0] in s;
      LeadingDigitsOfDigits(s[1..]);
    }
  }

  /** A price text without a dot parses as `parseInteger` reads it. */
  lemma PriceWithoutDot(text: string)
    requires '.' !in text
    ensures ParsePrice(text) == ParseInteger(text) as real
  {
    FilterExt(text, IsPriceChar, IsDigit);
    LeadingDigitsOfDigits(Digits(text));
  }

  /** Writing a price in whole units and parsing it gives it back. */
  lemma ParsePriceRoundTrip(n: nat)
    ensures ParsePrice(NatToString(n)) == n as real
  {
    PriceWithoutDot(NatToString(n));
    ParseIntegerRoundTrip(n);
  }

  lemma {:induction false} DecimalAppend(x: string, y: string)
    requires AllDigits(x) && AllDigits(y)
    ensures DecimalValue(x + y) == DecimalValue(x) * Pow10(|y|) + DecimalValue(y)
    decreases |y|
  {
    if y == [] {
      assert x + y == x;
    } else {
      var init := y[..|y| - 1];
      assert (x + y)[..|x + y| - 1] == x + init;
      assert (x + y)[|x + y| - 1] == y[|y| - 1];
      assert forall c :: c in init ==> c in y;
      DecimalAppend(x, init);
      assert DecimalValue(x) * Pow10(|y|) == 10 * (DecimalValue(x) * Pow10(|init|));
    }
  }

  /** Every digit of the text is read, wherever it stands: the digits of a
      later part are appended to those of an earlier one, so "3 bed 2 bath"
      reads as 32. */
  lemma ParseIntegerConcat(a: string, b: string)
    ensures ParseInteger(a + b) == ParseInteger(a) * Pow10(|Digits(b)|) + ParseInteger(b)
  {
    FilterAppend(a, b, IsDigit);
    DecimalAppend(Digits(a), Digits(b));
    if Digits(a) == [] {
      assert Digits(a) + Digits(b) == Digits(b);
    }
    if Digits(b) == [] {
      assert Digits(a) + Digits(b) == Digits(a);
    }
  }

  /** Characters other than digits and dots (a currency sign, thousands
      separators, spaces) do not change the price read. */
  lemma ParsePriceIgnoresOtherChars(a: string, other: string, b: string)
    requires forall c :: c in other ==> !IsPriceChar(c)
    ensures ParsePrice(a + other + b) == ParsePrice(a + b)
  {
    FilterAppend(a + other, b, IsPriceChar);
    FilterAppend(a, other, IsPriceChar);
    FilterAppend(a, b, IsPriceChar);
    FilterNone(other, IsPriceChar);
    assert CleanPrice(a) + [] == CleanPrice(a);
  }

  lemma {:induction false} LeadingDigitsStop(w: string, rest: string)
    requires AllDigits(w) && rest != [] && !IsDigit(rest[0])
    ensures LeadingDigits(w + rest) == w
    decreases |w|
  {
    if w != [] {
      assert w[0] in w;
      assert forall c :: c in w[1..] ==> c in w;
      LeadingDigitsStop(w[1..], rest);
      assert (w + rest)[1..] == w[1..] + rest;
    }
  }

  lemma DropPrefix(a: string, b: string)
    ensures (a + b)[|a|..] == b
  {
  }

  /** A cleaned price "w.f" followed by nothing or by another dot reads as
      the whole part `w` plus the fraction `f`; a second dot and whatever
      follows it are ignored; "." alone is NaN. */
  lemma ParseDecimalParts(w: string, f: string, tail: string)
    requires AllDigits(w) && AllDigits(f) && (tail == [] || tail[0] == '.')
    ensures ParseDecimal(w + "." + f + tail) == DecimalOf(w, f)
  {
    var rest := "." + (f + tail);
    assert w + "." + f + tail == w + rest;
    LeadingDigitsStop(w, rest);
    DropPrefix(w, rest);
    assert rest[1..] == f + tail;
    if tail == [] {
      assert f + tail == f;
      LeadingDigitsOfDigits(f);
    } else {
      LeadingDigitsStop(f, tail);
    }
  }

  // ---------------------------------------------------------------------
  // Text helpers
  // ---------------------------------------------------------------------

  /** `s.slice(0, n)`. */
  function Truncate(s: string, n: nat): (r: string)
    ensures |r| <= n && |r| <= |s| && r == s[..|r|]
    ensures |s| <= n ==> r == s
    ensures |s| > n ==> |r| == n
  {
    if |s| <= n then s else s[..n]
  }

  /** A page element as the scrapers see it: its text and its `src`
      attribute. */
  datatype Element = Element(text: string, src: Option<string>)

  /** A parsed page: `images` is every `img` element in document order
      (`querySelectorAll('img')`), and `query` is the first element a
      selector matches, an abstract function of the page. The bare `img`
      selector is not read through `query`: its first match is the first
      of `images` (`FirstImage`). */
  datatype Document = Document(query: string -> Option<Element>, images: seq<Element>)

  /** `querySelector('img')`: the first image of the page, if any. */
  function FirstImage(doc: Document): (r: Option<Element>)
    ensures r.None? <==> doc.images == []
    ensures r.Some? ==> r.value == doc.images[0]
  {
    if doc.images == [] then None else Some(doc.images[0])
  }

  /** `safeTextContent`: the element's trimmed text, or '' for no element. */
  function SafeText(e: Option<Element>): string
  {
    if e.None? then "" else Trim(e.value.text)
  }

  /** `safeAttribute(e, 'src')`: the attribute, or '' when the element or
      the attribute is missing. */
  function SafeSrc(e: Option<Element>): string
  {
    if e.None? || e.value.src.None? then "" else e.value.src.value
  }

  /** `q(a) || q(b) || ...`: the first selector that finds an element. */
  function FirstFound(doc: Document, selectors: seq<string>): (r: Option<Element>)
    ensures r.Some? ==> exists i :: 0 <= i < |selectors| && doc.query(selectors[i]) == r
                                    && forall j :: 0 <= j < i ==> doc.query(selectors[j]).None?
    ensures r.None? ==> forall i :: 0 <= i < |selectors| ==> doc.query(selectors[i]).None?
  {
    if selectors == [] then None
    else if doc.query(selectors[0]).Some? then doc.query(selectors[0])
    else FirstFound(doc, selectors[1..])
  }

  // ---------------------------------------------------------------------
  // Scrapers
  // ---------------------------------------------------------------------

  const MaxDescription := 1000
  const MaxLocation := 100

  /** What a scraper reads from a page. */
  datatype Scraped = Scraped(price: real, description: string, location: string,
                             bedrooms: nat, imageUrl: string, estateAgent: string)

  predicate Bounded(s: Scraped)
  {
    s.price >= 0.0 && |s.description| <= MaxDescription && |s.location| <= MaxLocation
  }

  function ScrapeZillow(doc: Document): (r: Scraped)
    ensures Bounded(r) && r.estateAgent == "Zillow"
  {
    Scraped(
      ParsePrice(SafeText(doc.query("[data-testid=\"price\"]"))),
      Truncate(SafeText(doc.query("[data-testid=\"description\"]")), MaxDescription),
      Truncate(SafeText(doc.query("[data-testid=\"breadcrumb\"]")), MaxLocation),
      ParseInteger(SafeText(doc.query("[data-testid=\"bed-value\"]"))),
      SafeSrc(doc.query("picture img")),
      "Zillow")
  }

  function ScrapeRightmove(doc: Document): (r: Scraped)
    ensures Bounded(r) && r.estateAgent == "Rightmove"
  {
    Scraped(
      ParsePrice(SafeText(FirstFound(doc, ["[data-testid=\"price\"]", ".price", "._1gfnqJ3Vtd1z40MlC0MzXu"]))),
      Truncate(SafeText(FirstFound(doc, ["[data-testid=\"description\"]", ".description", "._1uI3I7o-0rCWy7-cUApkyW"])), MaxDescription),
      Truncate(SafeText(FirstFound(doc, ["[data-testid=\"address\"]", ".address", "._2uQQ3SV0eMHL1P6tEVhY7_"])), MaxLocation),
      ParseInteger(SafeText(FirstFound(doc, ["[data-testid=\"bedrooms\"]", ".bedrooms", "._4hBezflLdgDM2EySOBO9v"]))),
      SafeSrc(if doc.query("[data-testid=\"image-link\"]").Some? then doc.query("[data-testid=\"image-link\"]")
              else FirstImage(doc)),
      "Rightmove")
  }

  const PriceSelectors: seq<string> :=
    ["[data-test=\"price\"]", "[data-testid=\"price\"]", ".price",
     ".property-price", "[class*=\"price\"]", "[id*=\"price\"]"]

  const DescriptionSelectors: seq<string> :=
    ["[data-test=\"description\"]", "[data-testid=\"description\"]",
     ".description", ".property-description", "[class*=\"description\"]"]

  /** The price a selector yields: parsed from its element, 0 when none. */
  function FoundPrice(doc: Document, selector: string): (r: real)
    ensures r >= 0.0
  {
    if doc.query(selector).None? then 0.0 else ParsePrice(SafeText(doc.query(selector)))
  }

  /** The description a selector yields: its element's text cut to 1000,
      '' when none. */
  function FoundDescription(doc: Document, selector: string): (r: string)
    ensures |r| <= MaxDescription
  {
    if doc.query(selector).None? then "" else Truncate(SafeText(doc.query(selector)), MaxDescription)
  }

  /** The first positive value, else 0. */
  function FirstPositive(xs: seq<real>): real
  {
    if xs == [] then 0.0 else if xs[0] > 0.0 then xs[0] else FirstPositive(xs[1..])
  }

  /** The first non-empty text, else ''. */
  function FirstNonEmpty(xs: seq<string>): string
  {
    if xs == [] then "" else if xs[0] != "" then xs[0] else FirstNonEmpty(xs[1..])
  }

  /** The price each selector yields, in selector order. */
  function PricesFound(doc: Document, selectors: seq<string>): (r: seq<real>)
    ensures |r| == |selectors| && forall i :: 0 <= i < |selectors| ==> r[i] == FoundPrice(doc, selectors[i])
  {
    seq(|selectors|, i requires 0 <= i < |selectors| => FoundPrice(doc, selectors[i]))
  }

  /** The description each selector yields, in selector order. */
  function DescriptionsFound(doc: Document, selectors: seq<string>): (r: seq<string>)
    ensures |r| == |selectors| && forall i :: 0 <= i < |selectors| ==> r[i] == FoundDescription(doc, selectors[i])
  {
    seq(|selectors|, i requires 0 <= i < |selectors| => FoundDescription(doc, selectors[i]))
  }

  /** The value chosen is 0 exactly when no value is positive, given that
      none is negative. */
  lemma {:induction false} FirstPositiveZero(xs: seq<real>)
    requires forall i :: 0 <= i < |xs| ==> xs[i] >= 0.0
    ensures FirstPositive(xs) == 0.0 <==> forall i :: 0 <= i < |xs| ==> xs[i] == 0.0
  {
    if xs != [] {
      FirstPositiveZero(xs[1..]);
      assert forall i :: 1 <= i < |xs| ==> xs[i] == xs[1..][i - 1];
    }
  }

  /** A positive value chosen is the first positive one: every value
      before it is not positive. */
  lemma {:induction false} FirstPositiveIsFirst(xs: seq<real>) returns (i: nat)
    requires FirstPositive(xs) > 0.0
    ensures i < |xs| && xs[i] == FirstPositive(xs)
    ensures forall j :: 0 <= j < i ==> xs[j] <= 0.0
  {
    if xs[0] > 0.0 {
      i := 0;
    } else {
      var k := FirstPositiveIsFirst(xs[1..]);
      i := k + 1;
    }
  }

  /** A non-empty text chosen is the first non-empty one; '' is chosen
      only when every text is empty. */
  lemma {:induction false} FirstNonEmptyIsFirst(xs: seq<string>) returns (i: nat)
    requires FirstNonEmpty(xs) != ""
    ensures i < |xs| && xs[i] == FirstNonEmpty(xs)
    ensures forall j :: 0 <= j < i ==> xs[j] == ""
  {
    if xs[0] != "" {
      i := 0;
    } else {
      var k := FirstNonEmptyIsFirst(xs[1..]);
      i := k + 1;
    }
  }

  lemma {:induction false} FirstNonEmptyEmpty(xs: seq<string>)
    ensures FirstNonEmpty(xs) == "" <==> forall i :: 0 <= i < |xs| ==> xs[i] == ""
  {
    if xs != [] {
      FirstNonEmptyEmpty(xs[1..]);
      assert forall i :: 1 <= i < |xs| ==> xs[i] == xs[1..][i - 1];
    }
  }

  /** An image source that looks like a picture of the property. */
  predicate LooksLikeProperty(src: string)
  {
    src != "" && (Includes(src, "property") || Includes(src, "house") || Includes(src, "home"))
  }

  /** The first image whose source looks like the property. */
  function PropertyImage(images: seq<Element>): Option<string>
  {
    if images == [] then None
    else if LooksLikeProperty(SafeSrc(Some(images[0]))) then Some(SafeSrc(Some(images[0])))
    else PropertyImage(images[1..])
  }

  /** That image, or else the first image's source, or else ''. */
  function ImageFrom(images: seq<Element>): string
  {
    match PropertyImage(images)
    case Some(src) => src
    case None => if images == [] then "" else SafeSrc(Some(images[0]))
  }

  /** What `scrapeGeneric` reads from a page. */
  function GenericScrape(doc: Document): (r: Scraped)
    ensures Bounded(r) && r.estateAgent == "Unknown" && r.bedrooms == 0
  {
    FirstPositiveBounds(PricesFound(doc, PriceSelectors));
    FirstNonEmptyBounds(DescriptionsFound(doc, DescriptionSelectors));
    Scraped(FirstPositive(PricesFound(doc, PriceSelectors)), FirstNonEmpty(DescriptionsFound(doc, DescriptionSelectors)),
            Truncate(SafeText(doc.query("title")), MaxLocation), 0, ImageFrom(doc.images), "Unknown")
  }

  lemma {:induction false} FirstPositiveBounds(xs: seq<real>)
    ensures FirstPositive(xs) >= 0.0
    ensures FirstPositive(xs) == 0.0 || FirstPositive(xs) in xs
  {
    if xs != [] {
      FirstPositiveBounds(xs[1..]);
    }
  }

  lemma {:induction false} FirstNonEmptyBounds(xs: seq<string>)
    ensures FirstNonEmpty(xs) == "" || FirstNonEmpty(xs) in xs
  {
    if xs != [] {
      FirstNonEmptyBounds(xs[1..]);
    }
  }

  /** The image chosen is a property-looking image, and no earlier image
      looks like one; failing that, it is the first image's source. */
  lemma {:induction false} ImageChoice(images: seq<Element>)
    ensures PropertyImage(images).Some? ==>
              exists i :: 0 <= i < |images| && SafeSrc(Some(images[i])) == ImageFrom(images)
                          && LooksLikeProperty(ImageFrom(images))
                          && forall j :: 0 <= j < i ==> !LooksLikeProperty(SafeSrc(Some(images[j])))
    ensures PropertyImage(images).None? ==>
              (forall i :: 0 <= i < |images| ==> !LooksLikeProperty(SafeSrc(Some(images[i]))))
              && ImageFrom(images) == (if images == [] then "" else SafeSrc(Some(images[0])))
  {
    if images != [] {
      ImageChoice(images[1..]);
      if !LooksLikeProperty(SafeSrc(Some(images[0]))) && PropertyImage(images).Some? {
        var i :| 0 <= i < |images[1..]| && SafeSrc(Some(images[1..][i])) == ImageFrom(images[1..])
                 && LooksLikeProperty(ImageFrom(images[1..]))
                 && forall j :: 0 <= j < i ==> !LooksLikeProperty(SafeSrc(Some(images[1..][j])));
        assert SafeSrc(Some(images[i + 1])) == ImageFrom(images);
      }
    }
  }

  /** `scrapeGeneric`: three selection loops over the page. */
  method ScrapeGeneric(doc: Document) returns (r: Scraped)
    ensures r == GenericScrape(doc)
  {
    var price := FindPrice(doc);
    var description := FindDescription(doc);
    var imageUrl := FindImage(doc.images);
    r := Scraped(price, description, Truncate(SafeText(doc.query("title")), MaxLocation), 0, imageUrl, "Unknown");
  }

  /** The price loop: stop at the first positive price. */
  method FindPrice(doc: Document) returns (price: real)
    ensures price == FirstPositive(PricesFound(doc, PriceSelectors))
  {
    ghost var prices := PricesFound(doc, PriceSelectors);
    price := 0.0;
    var i := 0;
    while i < |PriceSelectors|
      invariant 0 <= i <= |PriceSelectors|
      invariant price == 0.0
      invariant FirstPositive(prices) == FirstPositive(prices[i..])
    {
      assert prices[i..][1..] == prices[i + 1..];
      var element := doc.query(PriceSelectors[i]);
      if element.Some? {
        price := ParsePrice(SafeText(element));
        if price > 0.0 {
          break;
        }
      }
      i := i + 1;
    }
  }

  /** The description loop: stop at the first non-empty description. */
  method FindDescription(doc: Document) returns (description: string)
    ensures description == FirstNonEmpty(DescriptionsFound(doc, DescriptionSelectors))
  {
    ghost var found := DescriptionsFound(doc, DescriptionSelectors);
    description := "";
    var i := 0;
    while i < |DescriptionSelectors|
      invariant 0 <= i <= |DescriptionSelectors|
      invariant description == ""
      invariant FirstNonEmpty(found) == FirstNonEmpty(found[i..])
    {
      assert found[i..][1..] == found[i + 1..];
      var element := doc.query(DescriptionSelectors[i]);
      if element.Some? {
        description := Truncate(SafeText(element), MaxDescription);
        if |description| > 0 {
          break;
        }
      }
      i := i + 1;
    }
  }

  /** The image loop, then the fallback to the first image. */
  method FindImage(images: seq<Element>) returns (imageUrl: string)
    ensures imageUrl == ImageFrom(images)
  {
    imageUrl := "";
    var i := 0;
    while i < |images|
      invariant 0 <= i <= |images|
      invariant imageUrl == ""
      invariant PropertyImage(images) == PropertyImage(images[i..])
    {
      assert images[i..][1..] == images[i + 1..];
      var src := SafeSrc(Some(images[i]));
      if src != "" && (Includes(src, "property") || Includes(src, "house") || Includes(src, "home")) {
        imageUrl := src;
        break;
      }
      i := i + 1;
    }
    if imageUrl == "" && |images| > 0 {
      imageUrl := SafeSrc(Some(images[0]));
    }
  }

  // ---------------------------------------------------------------------
  // Dispatch and the handler
  // ---------------------------------------------------------------------

  datatype Site = Zillow | Rightmove | Generic

  /** The scraper for a URL: Zillow is checked first, then Rightmove. */
  function SiteFor(url: string): (s: Site)
    ensures s == Zillow <==> Includes(url, "zillow.com")
    ensures s == Rightmove <==> !Includes(url, "zillow.com") && Includes(url, "rightmove.co.uk")
  {
    if Includes(url, "zillow.com") then Zillow
    else if Includes(url, "rightmove.co.uk") then Rightmove
    else Generic
  }

  function ScrapeFor(url: string, doc: Document): Scraped
  {
    match SiteFor(url)
    case Zillow => ScrapeZillow(doc)
    case Rightmove => ScrapeRightmove(doc)
    case Generic => GenericScrape(doc)
  }

  /** Whichever scraper runs, the price is non-negative, the description is
      at most 1000 characters and the location at most 100. */
  lemma EveryScraperBounded(url: string, doc: Document)
    ensures Bounded(ScrapeFor(url, doc))
    ensures ScrapeFor(url, doc).estateAgent != ""
  {
  }

  /** The answered record. */
  datatype PropertyData = PropertyData(
    imageUrl: string, price: real, description: string, location: string,
    bedrooms: nat, dateOnSale: string, estateAgent: string,
    reduced: bool, views: bool, gardens: bool, outbuildings: bool,
    condition: string, features: seq<string>)

  /** The defaults a scraped page never overrides. */
  predicate HasFixedDefaults(d: PropertyData)
  {
    !d.reduced && !d.views && !d.gardens && !d.outbuildings
    && d.condition == "Unknown" && d.features == []
  }

  /** A relative image source, resolved against the page's origin by
      `resolve`; an empty or absolute (`http...`) source is kept. */
  function ResolveImage(src: string, resolve: string -> string): string
  {
    if src != "" && !StartsWith(src, "http") then resolve(src) else src
  }

  /** The record built from what was scraped; `today` is the date part of
      the current ISO timestamp. Missing values fall back to 0, '' or
      'Unknown'. */
  function Assemble(s: Scraped, imageUrl: string, today: string): (d: PropertyData)
    ensures HasFixedDefaults(d)
    ensures d.price == s.price && d.bedrooms == s.bedrooms && d.imageUrl == imageUrl
    ensures d.description == s.description && d.location == s.location && d.dateOnSale == today
    ensures d.estateAgent == (if s.estateAgent == "" then "Unknown" else s.estateAgent)
  {
    PropertyData(imageUrl, s.price, s.description, s.location, s.bedrooms, today,
                 if s.estateAgent == "" then "Unknown" else s.estateAgent,
                 false, false, false, false, "Unknown", [])
  }

  /** `new Date().toISOString().split('T')[0]`. */
  function DatePart(nowIso: string): string
  {
    Split(nowIso, 'T')[0]
  }

  /** The date part is everything before the first 'T'. */
  lemma {:induction false} DatePartIsPrefix(nowIso: string, k: nat)
    requires k < |nowIso| && nowIso[k] == 'T' && 'T' !in nowIso[..k]
    ensures DatePart(nowIso) == nowIso[..k]
  {
    if k > 0 {
      assert nowIso[1..][..k - 1] == nowIso[1..k];
      assert 'T' !in nowIso[1..][..k - 1] by {
        assert forall c :: c in nowIso[1..k] ==> c in nowIso[..k];
      }
      DatePartIsPrefix(nowIso[1..], k - 1);
      assert nowIso[..k] == [nowIso[0]] + nowIso[1..k];
    }
  }

  /** The request body: not JSON at all, the JSON literal `null` (which
      cannot be destructured), or a JSON value whose `url` is absent or a
      string. */
  datatype Body = Unparsable | NullBody | Json(url: Option<string>)

  datatype Request = Options | Post(body: Body)

  datatype Response =
    | Preflight                    // 200 "ok"
    | Data(data: PropertyData)     // 200
    | BadRequest(error: string)    // 400
    | Failed                       // 500, "Failed to scrape property"

  /** A missing or empty `url` is falsy. */
  predicate MissingUrl(url: Option<string>)
  {
    url.None? || url.value == ""
  }

  /** The answer the handler gives, as a function of the request and the
      outside world: URL validation, the fetched and parsed page (`None`
      for a network, timeout, non-OK or parse failure), relative-URL
      resolution and the clock. */
  function Answer(req: Request, isValidUrl: string -> bool, fetch: string -> Option<Document>,
                  resolve: string -> string, nowIso: string): Response
  {
    if req.Options? then Preflight
    else if req.body.Unparsable? || req.body.NullBody? then Failed
    else if MissingUrl(req.body.url) then BadRequest("URL is required")
    else
      var url := req.body.url.value;
      if !isValidUrl(url) then BadRequest("Invalid URL format")
      else if fetch(url).None? then Failed
      else
        var s := ScrapeFor(url, fetch(url).value);
        Data(Assemble(s, ResolveImage(s.imageUrl, resolve), DatePart(nowIso)))
  }

  /** The handler. `Answer` is its specification, and the lemmas about
      requests are stated on `Answer`; the method is the handler as the code
      runs it, calling the looping `ScrapeGeneric` for a generic page. */
  method HandleScrape(req: Request, isValidUrl: string -> bool, fetch: string -> Option<Document>,
                      resolve: string -> string, nowIso: string) returns (resp: Response)
    ensures resp == Answer(req, isValidUrl, fetch, resolve, nowIso)
  {
    if req.Options? {
      return Preflight;
    }
    if req.body.Unparsable? || req.body.NullBody? {
      return Failed;
    }
    if MissingUrl(req.body.url) {
      return BadRequest("URL is required");
    }
    var url := req.body.url.value;
    if !isValidUrl(url) {
      return BadRequest("Invalid URL format");
    }
    var page := fetch(url);
    if page.None? {
      return Failed;
    }
    var scraped: Scraped;
    if Includes(url, "zillow.com") {
      scraped := ScrapeZillow(page.value);
    } else if Includes(url, "rightmove.co.uk") {
      scraped := ScrapeRightmove(page.value);
    } else {
      scraped := ScrapeGeneric(page.value);
    }
    if scraped.imageUrl != "" && !StartsWith(scraped.imageUrl, "http") {
      scraped := scraped.(imageUrl := resolve(scraped.imageUrl));
    }
    var date := DatePart(nowIso);
    var data := PropertyData(
      scraped.imageUrl,
      scraped.price, scraped.description, scraped.location, scraped.bedrooms, date,
      if scraped.estateAgent == "" then "Unknown" else scraped.estateAgent,
      false, false, false, false, "Unknown", []);
    return Data(data);
  }

  /** A body that is not JSON, or is `null`, throws inside the handler's
      try block and is answered 500 without a fetch. */
  lemma BadBodyIs500(body: Body, isValidUrl: string -> bool, fetch: string -> Option<Document>,
                     fetch': string -> Option<Document>, resolve: string -> string, nowIso: string)
    requires body.Unparsable? || body.NullBody?
    ensures Answer(Post(body), isValidUrl, fetch, resolve, nowIso) == Failed
    ensures Answer(Post(body), isValidUrl, fetch, resolve, nowIso)
         == Answer(Post(body), isValidUrl, fetch', resolve, nowIso)
  {
  }

  /** A missing URL is answered 400 whatever the page fetch would do: no
      fetch happens. */
  lemma MissingUrlIs400(url: Option<string>, isValidUrl: string -> bool, fetch: string -> Option<Document>,
                        fetch': string -> Option<Document>, resolve: string -> string, nowIso: string)
    requires MissingUrl(url)
    ensures Answer(Post(Json(url)), isValidUrl, fetch, resolve, nowIso) == BadRequest("URL is required")
    ensures Answer(Post(Json(url)), isValidUrl, fetch, resolve, nowIso)
         == Answer(Post(Json(url)), isValidUrl, fetch', resolve, nowIso)
  {
  }

  /** Every record answered has the fixed defaults, a non-negative price, a
      description of at most 1000 characters, a location of at most 100
      and today's date. */
  lemma AnsweredRecord(req: Request, isValidUrl: string -> bool, fetch: string -> Option<Document>,
                       resolve: string -> string, nowIso: string)
    ensures var r := Answer(req, isValidUrl, fetch, resolve, nowIso);
            r.Data? ==> HasFixedDefaults(r.data) && r.data.price >= 0.0
                        && |r.data.description| <= MaxDescription && |r.data.location| <= MaxLocation
                        && r.data.dateOnSale == DatePart(nowIso) && r.data.estateAgent != ""
  {
    var r := Answer(req, isValidUrl, fetch, resolve, nowIso);
    if r.Data? {
      EveryScraperBounded(req.body.url.value, fetch(req.body.url.value).value);
    }
  }

  /** A Zillow URL is scraped by the Zillow scraper even when it also
      mentions Rightmove. */
  lemma ZillowFirst(url: string)
    requires Includes(url, "zillow.com") && Includes(url, "rightmove.co.uk")
    ensures SiteFor(url) == Zillow
  {
  }
}
