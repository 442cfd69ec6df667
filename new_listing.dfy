/**
 * The admin "new listing" page: the CEP (Brazilian postcode) input, the
 * uploaded images and the chosen cover, and the payload `onSubmit` posts.
 */
module NewListing {
  import opened Wrappers
  import opened Text
  import Query
  import opened Sequences
  import opened FiltersSchema
  import opened ServerGate

  // ---- The CEP input ----

  /**
   * `handleZipCodeChange`: only the digits stay, and once there are more
   * than five a '-' goes after the fifth.
   */
  function FormatZip(input: string): (r: string)
    ensures RemoveAll(r, '-') == KeepDigits(input)
    ensures |KeepDigits(input)| <= 5 ==> r == KeepDigits(input)
    ensures |KeepDigits(input)| > 5 ==> |r| == |KeepDigits(input)| + 1 && r[5] == '-'
  {
    var digits := KeepDigits(input);
    KeepDigitsOnlyDigits(input);
    if |digits| > 5 then
      ZipDash(digits);
      digits[..5] + "-" + digits[5..]
    else
      RemoveAllAbsentDigits(digits);
      digits
  }

  lemma RemoveAllAbsentDigits(digits: string)
    requires AllDigits(digits)
    ensures RemoveAll(digits, '-') == digits
  {
    assert '-' !in digits by {
      assert forall k :: 0 <= k < |digits| ==> digits[k] != '-';
    }
    RemoveAllAbsent(digits, '-');
  }

  lemma ZipDash(digits: string)
    requires AllDigits(digits) && |digits| > 5
    ensures RemoveAll(digits[..5] + "-" + digits[5..], '-') == digits
  {
    RemoveAllConcat(digits[..5] + "-", digits[5..], '-');
    RemoveAllConcat(digits[..5], "-", '-');
    RemoveAllAbsentDigits(digits[..5]);
    RemoveAllAbsentDigits(digits[5..]);
    assert digits[..5] + digits[5..] == digits;
  }

  /** The address lookup fires when the formatted value has nine characters. */
  predicate LookupFires(input: string) {
    |FormatZip(input)| == 9
  }

  /** ... which is exactly when eight digits were typed. */
  lemma LookupIffEightDigits(input: string)
    ensures LookupFires(input) <==> |KeepDigits(input)| == 8
  {
  }

  /** Formatting a formatted value again changes nothing. */
  lemma FormatZipIdempotent(input: string)
    ensures FormatZip(FormatZip(input)) == FormatZip(input)
  {
    var digits := KeepDigits(input);
    KeepDigitsOnlyDigits(input);
    if |digits| > 5 {
      KeepDigitsOfZip(digits);
    } else {
      KeepDigitsOfDigits(digits);
    }
  }

  /** The digits of a formatted value are the digits it was formatted from. */
  lemma KeepDigitsOfZip(digits: string)
    requires AllDigits(digits) && |digits| > 5
    ensures KeepDigits(digits[..5] + "-" + digits[5..]) == digits
  {
    var a, b := digits[..5], digits[5..];
    KeepDigitsDropsNonDigit(a, '-', b);
    KeepDigitsOfDigits(a);
    KeepDigitsOfDigits(b);
    assert a + b == digits;
    assert a + "-" + b == a + ['-'] + b;
  }

  // ---- Uploaded images and the cover ----

  /** `ImageType`: an uploaded picture. */
  datatype Image = Image(publicId: string, url: string)

  /** `CoverImageType`: the cover's id and its position when it was chosen. */
  datatype Cover = Cover(publicId: string, index: int)

  /** The images that survive deleting `publicId`. */
  function WithoutId(images: seq<Image>, publicId: string): (r: seq<Image>)
    ensures forall x :: x in r <==> x in images && x.publicId != publicId
    ensures forall x :: multiset(r)[x] == if x.publicId != publicId then multiset(images)[x] else 0
    ensures SubsequenceOf(r, images)
  {
    FilterSubsequence(images, (x: Image) => x.publicId != publicId);
    forall x: Image {
      FilterMultiset(images, (x: Image) => x.publicId != publicId, x);
    }
    Filter(images, (x: Image) => x.publicId != publicId)
  }

  /** `findIndex` on the public id: the first position holding it, or -1. */
  function FindIndex(images: seq<Image>, publicId: string): (r: int)
    ensures -1 <= r < |images|
    ensures r >= 0 ==> images[r].publicId == publicId
    ensures r >= 0 ==> forall j :: 0 <= j < r ==> images[j].publicId != publicId
    ensures r == -1 <==> forall j :: 0 <= j < |images| ==> images[j].publicId != publicId
  {
    if images == [] then -1
    else if images[0].publicId == publicId then 0
    else
      var t := FindIndex(images[1..], publicId);
      if t == -1 then -1 else t + 1
  }

  /** The cover points at an image that carries its id. */
  predicate CoverConsistent(images: seq<Image>, cover: Option<Cover>) {
    cover.Some? ==>
      0 <= cover.value.index < |images| && images[cover.value.index].publicId == cover.value.publicId
  }

  /** Choosing an image on screen as the cover gives a consistent cover. */
  lemma ChosenCoverConsistent(images: seq<Image>, i: int)
    requires 0 <= i < |images|
    ensures CoverConsistent(images, Some(Cover(images[i].publicId, FindIndex(images, images[i].publicId))))
  {
  }

  /** The cover after `handleDeleteImage`, as the page computes it: cleared only if it is the deleted image. */
  function CoverAfterDelete(cover: Option<Cover>, publicId: string): (r: Option<Cover>)
    ensures r.None? <==> cover.None? || cover.value.publicId == publicId
    ensures r.Some? ==> r == cover
  {
    if cover.Some? && cover.value.publicId == publicId then None else cover
  }

  /**
   * Deleting an image in front of the cover leaves the cover's index
   * pointing past the list: two images, the second is the cover, the first
   * is deleted.
   */
  lemma StaleCoverAfterDelete()
    ensures var images := [Image("a", "u1"), Image("b", "u2")];
      var cover := Some(Cover("b", 1));
      CoverConsistent(images, cover) &&
      !CoverConsistent(WithoutId(images, "a"), CoverAfterDelete(cover, "a"))
  {
    var images := [Image("a", "u1"), Image("b", "u2")];
    var keep := (x: Image) => x.publicId != "a";
    assert Filter(images[1..][1..], keep) == [];
    assert Filter(images[1..], keep) == [Image("b", "u2")];
    assert WithoutId(images, "a") == [Image("b", "u2")];
  }

  /** The cover after a delete, re-located in the remaining images. */
  function CoverAfterDeleteFixed(images: seq<Image>, cover: Option<Cover>, publicId: string): (r: Option<Cover>)
    ensures r.None? <==> cover.None? || cover.value.publicId == publicId
    ensures r.Some? ==> r.value.publicId == cover.value.publicId
  {
    if cover.None? || cover.value.publicId == publicId then None
    else Some(Cover(cover.value.publicId, FindIndex(WithoutId(images, publicId), cover.value.publicId)))
  }

  /** Re-locating the cover keeps it consistent whatever is deleted. */
  lemma CoverFixedStaysConsistent(images: seq<Image>, cover: Option<Cover>, publicId: string)
    requires CoverConsistent(images, cover)
    ensures CoverConsistent(WithoutId(images, publicId), CoverAfterDeleteFixed(images, cover, publicId))
  {
    if cover.Some? && cover.value.publicId != publicId {
      var rest := WithoutId(images, publicId);
      var x := images[cover.value.index];
      assert x in rest;
    }
  }

  /** `"upload/" + publicId.split('/')[2]`: the path of the delete request. */
  function DeletePath(publicId: string): (r: string)
    ensures |r| >= 7 && r[..7] == "upload/"
    ensures Count(publicId, '/') >= 2 ==> r[7..] == Split(publicId, '/')[2] && '/' !in r[7..]
    ensures Count(publicId, '/') < 2 ==> r[7..] == "undefined"
  {
    var pieces := Split(publicId, '/');
    if |pieces| > 2 then "upload/" + pieces[2] else "upload/undefined"
  }

  // ---- The payload ----

  /** What `parseInt` gives, and `null` for an empty optional field. */
  datatype Numeric = Null | NaN | Int(value: int)

  function ParseNumber(s: string): (n: Numeric)
    ensures n != Null
  {
    match ParseInt(s)
    case None => NaN
    case Some(v) => Int(v)
  }

  /** An optional numeric field: `null` when empty, otherwise parsed without its dots. */
  function OptionalNumber(v: Option<string>): (n: Numeric)
    ensures n == Null <==> !Query.Filled(v)
  {
    if Query.Filled(v) then ParseNumber(RemoveAll(v.value, '.')) else Null
  }

  /** The form fields `onSubmit` rewrites (the others are passed through). */
  datatype ListingForm = ListingForm(
    financeable: string,
    bedroom: string,
    bathroom: string,
    parkingSpaces: string,
    usefulArea: Option<string>,
    totalArea: Option<string>,
    condonPrice: Option<string>,
    iptu: Option<string>,
    realtorId: string,
    price: string,
    videotourUrl: Option<string>,
    propertyFeatures: map<string, bool>,
    condoFeatures: map<string, bool>)

  /** The payload fields `onSubmit` computes. */
  datatype Payload = Payload(
    images: seq<string>,
    adImageCover: Option<int>,
    financeable: bool,
    bedroom: Numeric,
    bathroom: Numeric,
    parkingSpaces: Numeric,
    usefulArea: Numeric,
    totalArea: Numeric,
    condonPrice: Numeric,
    iptu: Numeric,
    realtorId: Numeric,
    price: Numeric,
    videotourUrl: Option<string>,
    propertyFeatures: map<string, bool>,
    condoFeatures: map<string, bool>)

  /** `defaultPropertyFeatures`: ten amenities, all off. */
  const DefaultPropertyFeatures: map<string, bool> := map[
    "serviceArea" := false, "bedroomClosets" := false, "kitchenCabinets" := false,
    "furnished" := false, "airConditioning" := false, "barbecueGrill" := false,
    "balcony" := false, "gym" := false, "swimmingPool" := false, "serviceRoom" := false]

  /** `defaultCondoFeatures`: eight amenities, all off. */
  const DefaultCondoFeatures: map<string, bool> := map[
    "gatedCommunity" := false, "elevator" := false, "security24h" := false,
    "concierge" := false, "petsAllowed" := false, "gym" := false,
    "swimmingPool" := false, "partyHall" := false]

  /** `{ ...defaults, ...chosen }`: every default key, the chosen values winning. */
  function MergeFeatures(defaults: map<string, bool>, chosen: map<string, bool>): (r: map<string, bool>)
    ensures r.Keys == defaults.Keys + chosen.Keys
    ensures forall k :: k in chosen ==> r[k] == chosen[k]
    ensures forall k :: k in defaults && k !in chosen ==> r[k] == defaults[k]
  {
    defaults + chosen
  }

  /** An amenity the admin did not tick is sent as `false`. */
  lemma UnsetFeaturesOff(chosen: map<string, bool>, k: string)
    requires k in DefaultPropertyFeatures && k !in chosen
    ensures MergeFeatures(DefaultPropertyFeatures, chosen)[k] == false
  {
  }

  /** `parseInt(price.replace(/\./g, ''), 10)`. */
  function PriceNumber(price: string): (n: Numeric)
    ensures n != Null
  {
    ParseNumber(RemoveAll(price, '.'))
  }

  /** `onSubmit`'s formatted data. */
  function BuildPayload(form: ListingForm, images: seq<Image>, cover: Option<Cover>): (p: Payload)
    ensures |p.images| == |images| && forall i :: 0 <= i < |images| ==> p.images[i] == images[i].url
    ensures p.adImageCover == (if cover.Some? then Some(cover.value.index) else None)
    ensures p.financeable <==> form.financeable == "true"
    ensures p.videotourUrl.None? <==> !Query.Filled(form.videotourUrl)
    ensures p.videotourUrl.Some? ==> p.videotourUrl == form.videotourUrl
    ensures p.usefulArea == OptionalNumber(form.usefulArea) && p.totalArea == OptionalNumber(form.totalArea)
    ensures p.condonPrice == OptionalNumber(form.condonPrice) && p.iptu == OptionalNumber(form.iptu)
    ensures p.usefulArea == Null <==> !Query.Filled(form.usefulArea)
    ensures p.totalArea == Null <==> !Query.Filled(form.totalArea)
    ensures p.condonPrice == Null <==> !Query.Filled(form.condonPrice)
    ensures p.iptu == Null <==> !Query.Filled(form.iptu)
    ensures p.price == PriceNumber(form.price)
    ensures p.bedroom == ParseNumber(form.bedroom) && p.bathroom == ParseNumber(form.bathroom)
    ensures p.parkingSpaces == ParseNumber(form.parkingSpaces) && p.realtorId == ParseNumber(form.realtorId)
    ensures p.bedroom != Null && p.bathroom != Null && p.parkingSpaces != Null && p.realtorId != Null
    ensures p.propertyFeatures.Keys == DefaultPropertyFeatures.Keys + form.propertyFeatures.Keys
    ensures p.condoFeatures.Keys == DefaultCondoFeatures.Keys + form.condoFeatures.Keys
  {
    Payload(
      images := Urls(images),
      adImageCover := if cover.Some? then Some(cover.value.index) else None,
      financeable := form.financeable == "true",
      bedroom := ParseNumber(form.bedroom),
      bathroom := ParseNumber(form.bathroom),
      parkingSpaces := ParseNumber(form.parkingSpaces),
      usefulArea := OptionalNumber(form.usefulArea),
      totalArea := OptionalNumber(form.totalArea),
      condonPrice := OptionalNumber(form.condonPrice),
      iptu := OptionalNumber(form.iptu),
      realtorId := ParseNumber(form.realtorId),
      price := PriceNumber(form.price),
      videotourUrl := if Query.Filled(form.videotourUrl) then form.videotourUrl else None,
      propertyFeatures := MergeFeatures(DefaultPropertyFeatures, form.propertyFeatures),
      condoFeatures := MergeFeatures(DefaultCondoFeatures, form.condoFeatures))
  }

  /** `temporaryImages.map((image) => image.url)`. */
  function Urls(images: seq<Image>): (r: seq<string>)
    ensures |r| == |images|
    ensures forall i :: 0 <= i < |images| ==> r[i] == images[i].url
  {
    if images == [] then [] else [images[0].url] + Urls(images[1..])
  }

  /** Removing the dots leaves only digits in a digits-and-dots string. */
  lemma {:induction false} DotsRemovedAreDigits(s: string)
    requires PriceLike(s)
    ensures AllDigits(RemoveAll(s, '.'))
  {
    if s != [] {
      DotsRemovedAreDigits(s[1..]);
    }
  }

  /**
   * The dots of a price are thousands separators: the payload price is the
   * number its digits spell.
   */
  lemma PriceIgnoresDots(price: string)
    requires PriceLike(price) && RemoveAll(price, '.') != ""
    ensures AllDigits(RemoveAll(price, '.'))
    ensures PriceNumber(price) == Int(DigitsValue(RemoveAll(price, '.')))
  {
    var digits := RemoveAll(price, '.');
    DotsRemovedAreDigits(price);
    ParseIntOfDigits(digits);
  }

  /** The four optional numeric fields read their dots as thousands separators too. */
  lemma OptionalNumberIgnoresDots(v: Option<string>)
    requires v.Some? && PriceLike(v.value) && RemoveAll(v.value, '.') != ""
    ensures AllDigits(RemoveAll(v.value, '.'))
    ensures OptionalNumber(v) == Int(DigitsValue(RemoveAll(v.value, '.')))
  {
    assert v.value != "";
    PriceIgnoresDots(v.value);
  }

  /**
   * Bedrooms, bathrooms, parking spaces and the realtor id are parsed as
   * typed, dots included: `parseInt` stops at the first dot, so only the
   * digits in front of it count.
   */
  lemma RawNumberStopsAtDot(digits: string, rest: string)
    requires AllDigits(digits) && digits != []
    ensures ParseNumber(digits + "." + rest) == Int(DigitsValue(digits))
  {
    assert digits + "." + rest == digits + ("." + rest);
    ParseIntStops(digits, "." + rest);
  }

  /** So "1.000" is one bedroom, while the same text in an area field is a thousand. */
  lemma RawAndStrippedDiffer()
    ensures ParseNumber("1.000") == Int(1)
    ensures OptionalNumber(Some("1.000")) == Int(1000)
  {
    RawOneThousand();
    StrippedOneThousand();
  }

  /** A raw field reads "1.000" as 1. */
  lemma RawOneThousand()
    ensures ParseNumber("1.000") == Int(1)
  {
    assert "1.000" == "1" + "." + "000";
    assert DigitsValue("1") == 1 by { assert "1"[..0] == ""; }
    RawNumberStopsAtDot("1", "000");
  }

  /** An optional numeric field reads "1.000" as 1000. */
  lemma StrippedOneThousand()
    ensures OptionalNumber(Some("1.000")) == Int(1000)
  {
    DotsOfOneThousand();
    ValueOfOneThousand();
    assert PriceLike("1.000");
    OptionalNumberIgnoresDots(Some("1.000"));
  }

  /** Deleting the dot of "1.000" leaves "1000". */
  lemma DotsOfOneThousand()
    ensures RemoveAll("1.000", '.') == "1000"
  {
    var zeros := "000";
    assert "1.000" == ['1'] + (['.'] + zeros);
    RemoveAllCons('1', ['.'] + zeros, '.');
    RemoveAllCons('.', zeros, '.');
    RemoveAllAbsent(zeros, '.');
  }

  /** "1000" spells a thousand. */
  lemma ValueOfOneThousand()
    ensures AllDigits("1000") && DigitsValue("1000") == 1000
  {
    assert "1000"[..3] == "100" && "100"[..2] == "10" && "10"[..1] == "1" && "1"[..0] == "";
  }

  /** The cover sent with the payload names one of the images sent, when the cover is consistent. */
  lemma PayloadCoverInRange(form: ListingForm, images: seq<Image>, cover: Option<Cover>)
    requires CoverConsistent(images, cover) && cover.Some?
    ensures var p := BuildPayload(form, images, cover);
      p.adImageCover.Some? && 0 <= p.adImageCover.value < |p.images|
  {
  }

  /** The page's image state. */
  class ImageUploads {
    var temporaryImages: seq<Image>
    var mainImage: Option<Cover>

    constructor ()
      ensures temporaryImages == [] && mainImage == None
    {
      temporaryImages := [];
      mainImage := None;
    }

    /** A successful upload appends what the server returned. */
    method AppendUploaded(uploaded: seq<Image>)
      modifies this
      ensures temporaryImages == old(temporaryImages) + uploaded
      ensures mainImage == old(mainImage)
      ensures CoverConsistent(old(temporaryImages), old(mainImage)) ==> CoverConsistent(temporaryImages, mainImage)
    {
      temporaryImages := temporaryImages + uploaded;
    }

    /**
     * `handleDeleteImage`: the cover is cleared first if it is the image;
     * the list is filtered only when the delete request succeeds.
     */
    method DeleteImage(publicId: string, deleteSucceeded: bool)
      modifies this
      ensures mainImage == CoverAfterDelete(old(mainImage), publicId)
      ensures deleteSucceeded ==> temporaryImages == WithoutId(old(temporaryImages), publicId)
      ensures !deleteSucceeded ==> temporaryImages == old(temporaryImages)
    {
      if mainImage.Some? && mainImage.value.publicId == publicId {
        mainImage := None;
      }
      if deleteSucceeded {
        temporaryImages := WithoutId(temporaryImages, publicId);
      }
    }

    /** `handleSetMainImage` for the image with `publicId`. */
    method SetMainImage(publicId: string)
      modifies this
      ensures mainImage == Some(Cover(publicId, FindIndex(temporaryImages, publicId)))
      ensures temporaryImages == old(temporaryImages)
      ensures (exists i :: 0 <= i < |temporaryImages| && temporaryImages[i].publicId == publicId)
                ==> CoverConsistent(temporaryImages, mainImage)
    {
      mainImage := Some(Cover(publicId, FindIndex(temporaryImages, publicId)));
    }

    /** The submit button is disabled while no cover is chosen. */
    method SubmitDisabled() returns (disabled: bool)
      ensures disabled <==> mainImage.None?
    {
      disabled := mainImage == None;
    }

    /** `onSubmit`'s payload for the current images and cover. */
    method Submit(form: ListingForm) returns (p: Payload)
      ensures p == BuildPayload(form, temporaryImages, mainImage)
    {
      p := BuildPayload(form, temporaryImages, mainImage);
    }
  }

  /** `getServerSideProps`: no token, back to `/`; otherwise empty props. */
  function ServerSideProps(token: Option<string>): (r: PageResult<()>)
    ensures r.Redirect? <==> !Query.Filled(token)
    ensures r.Redirect? ==> r == Redirect("/", false)
  {
    Gate(token, ())
  }
}
