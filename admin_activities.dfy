/**
 * The activities back-office page (`app/admin/activities/page.tsx`): the
 * thirteen form fields, `mapInitial` (an activity, or nothing, to the
 * string-valued form) and `transformPayload` (the form to the body sent to
 * the backend, with the comma-separated image URLs split into a list).
 */
module AdminActivities {
  import opened Wrappers
  import opened Strings

  const FieldNames: seq<string> := [
    "categoryId", "title", "description", "imageUrls", "price", "price_discount",
    "rating", "total_reviews", "facilities", "address", "province", "city", "location_maps"
  ]

  /** The form fields `transformPayload` rewrites; every other field is copied. */
  const RewrittenFields: set<string> := {"imageUrls", "price", "price_discount", "rating", "total_reviews"}

  /** An activity as the backend returns it; any field may be missing at run time. */
  datatype Activity = Activity(
    categoryId: Option<string>,
    title: Option<string>,
    description: Option<string>,
    imageUrls: Option<seq<string>>,
    price: Option<real>,
    priceDiscount: Option<real>,
    rating: Option<real>,
    totalReviews: Option<real>,
    facilities: Option<string>,
    address: Option<string>,
    province: Option<string>,
    city: Option<string>,
    locationMaps: Option<string>)

  /** What `item?.field` reads for every field when there is no item. */
  const NoActivity: Activity :=
    Activity(None, None, None, None, None, None, None, None, None, None, None, None, None)

  type Form = map<string, string>

  /** A numeric field as form text: `show` of the number, or `""` when it is missing. */
  function NumberText(n: Option<real>, show: real -> string): string {
    if n.Some? then show(n.value) else ""
  }

  /** `mapInitial`: every field read with `?? ""`, the image URLs joined with `,`. */
  function MapInitial(item: Option<Activity>, show: real -> string): Form {
    var a := item.GetOr(NoActivity);
    map[
      "categoryId" := a.categoryId.GetOr(""),
      "title" := a.title.GetOr(""),
      "description" := a.description.GetOr(""),
      "imageUrls" := if a.imageUrls.Some? then Join(a.imageUrls.value, ',') else "",
      "price" := NumberText(a.price, show),
      "price_discount" := NumberText(a.priceDiscount, show),
      "rating" := NumberText(a.rating, show),
      "total_reviews" := NumberText(a.totalReviews, show),
      "facilities" := a.facilities.GetOr(""),
      "address" := a.address.GetOr(""),
      "province" := a.province.GetOr(""),
      "city" := a.city.GetOr(""),
      "location_maps" := a.locationMaps.GetOr("")
    ]
  }

  /** The form always has exactly the field names as keys. */
  lemma MapInitialKeys(item: Option<Activity>, show: real -> string)
    ensures MapInitial(item, show).Keys == set k | k in FieldNames
  {
  }

  /** With no item, every one of the thirteen fields is `""`. */
  lemma MapInitialOfNothingIsBlank(show: real -> string)
    ensures forall k :: k in FieldNames ==> k in MapInitial(None, show) && MapInitial(None, show)[k] == ""
  {
  }

  // ------------------------------------------------------------ image URLs

  /** Trims every part and drops the parts that are empty after trimming, keeping order. */
  function NonBlankTrimmed(parts: seq<string>): (r: seq<string>)
    ensures |r| <= |parts|
    ensures forall k :: 0 <= k < |r| ==> r[k] != [] && IsTrimmed(r[k])
    decreases |parts|
  {
    if parts == [] then []
    else
      var t := Trim(parts[0]);
      if t == [] then NonBlankTrimmed(parts[1..]) else [t] + NonBlankTrimmed(parts[1..])
  }

  /** A character absent from every part is absent from every trimmed part. */
  lemma {:induction false} NonBlankTrimmedKeepsAbsentChar(parts: seq<string>, c: char)
    requires forall k :: 0 <= k < |parts| ==> c !in parts[k]
    ensures forall k :: 0 <= k < |NonBlankTrimmed(parts)| ==> c !in NonBlankTrimmed(parts)[k]
    decreases |parts|
  {
    if parts != [] {
      TrimKeepsAbsentChar(parts[0], c);
      NonBlankTrimmedKeepsAbsentChar(parts[1..], c);
    }
  }

  /** The image URL list: the text split at commas, each piece trimmed, empty pieces dropped. */
  function CleanImageUrls(s: string): (r: seq<string>)
    ensures forall k :: 0 <= k < |r| ==> r[k] != [] && IsTrimmed(r[k]) && ',' !in r[k]
  {
    NonBlankTrimmedKeepsAbsentChar(Split(s, ','), ',');
    NonBlankTrimmed(Split(s, ','))
  }

  /** One step of the map-and-filter: the first part contributes its trimmed form unless that is empty. */
  lemma NonBlankTrimmedCons(head: string, tail: seq<string>)
    ensures NonBlankTrimmed([head] + tail)
            == (if Trim(head) == [] then [] else [Trim(head)]) + NonBlankTrimmed(tail)
  {
    assert ([head] + tail)[0] == head && ([head] + tail)[1..] == tail;
  }

  lemma {:induction false} NonBlankTrimmedConcat(a: seq<string>, b: seq<string>)
    ensures NonBlankTrimmed(a + b) == NonBlankTrimmed(a) + NonBlankTrimmed(b)
    decreases |a|
  {
    if a == [] {
      assert a + b == b;
    } else {
      var head, tail := a[0], a[1..];
      var first := if Trim(head) == [] then [] else [Trim(head)];
      assert a == [head] + tail;
      assert a + b == [head] + (tail + b);
      calc {
        NonBlankTrimmed(a + b);
        { NonBlankTrimmedCons(head, tail + b); }
        first + NonBlankTrimmed(tail + b);
        { NonBlankTrimmedConcat(tail, b); }
        first + (NonBlankTrimmed(tail) + NonBlankTrimmed(b));
        (first + NonBlankTrimmed(tail)) + NonBlankTrimmed(b);
        { NonBlankTrimmedCons(head, tail); }
        NonBlankTrimmed(a) + NonBlankTrimmed(b);
      }
    }
  }

  lemma {:induction false} NonBlankTrimmedFixes(parts: seq<string>)
    requires forall k :: 0 <= k < |parts| ==> parts[k] != [] && IsTrimmed(parts[k])
    ensures NonBlankTrimmed(parts) == parts
    decreases |parts|
  {
    if parts != [] {
      var head, tail := parts[0], parts[1..];
      assert parts == [head] + tail;
      TrimFixesTrimmed(head);
      assert forall k :: 0 <= k < |tail| ==> tail[k] == parts[k + 1];
      NonBlankTrimmedFixes(tail);
      NonBlankTrimmedCons(head, tail);
    }
  }

  lemma {:induction false} NonBlankTrimmedOfBlanks(parts: seq<string>)
    requires forall k :: 0 <= k < |parts| ==> AllWhitespace(parts[k])
    ensures NonBlankTrimmed(parts) == []
    decreases |parts|
  {
    if parts != [] {
      TrimEmptyIff(parts[0]);
      NonBlankTrimmedOfBlanks(parts[1..]);
    }
  }

  /** Order is kept: the URLs left of a comma come before those right of it. */
  lemma CleanImageUrlsAtComma(a: string, b: string)
    ensures CleanImageUrls(a + [','] + b) == CleanImageUrls(a) + CleanImageUrls(b)
  {
    SplitAtSeparator(a, b, ',');
    NonBlankTrimmedConcat(Split(a, ','), Split(b, ','));
  }

  /** Input made only of commas and whitespace gives no URLs at all. */
  lemma CommasAndWhitespaceGiveNoUrls(s: string)
    requires forall i :: 0 <= i < |s| ==> s[i] == ',' || IsWhitespace(s[i])
    ensures CleanImageUrls(s) == []
  {
    var parts := Split(s, ',');
    JoinSplit(s, ',');
    forall k | 0 <= k < |parts| ensures AllWhitespace(parts[k]) {
      forall j | 0 <= j < |parts[k]| ensures IsWhitespace(parts[k][j]) {
        JoinContainsParts(parts, ',', k, parts[k][j]);
      }
    }
    NonBlankTrimmedOfBlanks(parts);
  }

  /** Round trip: URLs that are non-empty, comma-free and trimmed survive `join(",")` and the split back. */
  lemma JoinThenCleanRoundTrip(urls: seq<string>)
    requires forall k :: 0 <= k < |urls| ==> urls[k] != [] && ',' !in urls[k] && IsTrimmed(urls[k])
    ensures CleanImageUrls(Join(urls, ',')) == urls
  {
    if urls == [] {
      assert Split([], ',') == [[]];
      assert Trim([]) == [];
    } else {
      SplitJoin(urls, ',');
      NonBlankTrimmedFixes(urls);
    }
  }

  // ------------------------------------------------------------ the payload

  /** A payload field: copied text, the image URL list, or `Number(...)` of a form string (kept unevaluated). */
  datatype PayloadValue = Text(text: string) | List(items: seq<string>) | Number(source: Option<string>)

  function Lookup(form: Form, key: string): Option<string> {
    if key in form then Some(form[key]) else None
  }

  /**
   * `transformPayload`: the form spread into a new object, then the image
   * URLs and the four numeric fields overwritten. A form without
   * `imageUrls` makes `split` throw, which is `None` here.
   */
  function TransformPayload(form: Form): Option<map<string, PayloadValue>> {
    if "imageUrls" !in form then None
    else
      var copied := map k | k in form :: Text(form[k]);
      Some(copied["imageUrls" := List(CleanImageUrls(form["imageUrls"]))]
                 ["price" := Number(Lookup(form, "price"))]
                 ["price_discount" := Number(Lookup(form, "price_discount"))]
                 ["rating" := Number(Lookup(form, "rating"))]
                 ["total_reviews" := Number(Lookup(form, "total_reviews"))])
  }

  /** The payload has the form's keys plus the rewritten ones, and every other field is copied unchanged. */
  lemma TransformCopiesOtherFields(form: Form)
    requires "imageUrls" in form
    ensures TransformPayload(form).Some?
    ensures TransformPayload(form).value.Keys == form.Keys + RewrittenFields
    ensures forall k :: k in form && k !in RewrittenFields ==> TransformPayload(form).value[k] == Text(form[k])
    ensures TransformPayload(form).value["imageUrls"] == List(CleanImageUrls(form["imageUrls"]))
  {
  }

  /** Without an `imageUrls` field the transform throws. */
  lemma TransformNeedsImageUrls(form: Form)
    requires "imageUrls" !in form
    ensures TransformPayload(form) == None
  {
  }

  /** Editing an activity and saving it unchanged sends its image URLs back as they were. */
  lemma EditRoundTripKeepsImageUrls(a: Activity, show: real -> string)
    requires a.imageUrls.Some?
    requires forall k :: 0 <= k < |a.imageUrls.value| ==>
               a.imageUrls.value[k] != [] && ',' !in a.imageUrls.value[k] && IsTrimmed(a.imageUrls.value[k])
    ensures TransformPayload(MapInitial(Some(a), show)).Some?
    ensures TransformPayload(MapInitial(Some(a), show)).value["imageUrls"] == List(a.imageUrls.value)
  {
    var form := MapInitial(Some(a), show);
    assert "imageUrls" in form && form["imageUrls"] == Join(a.imageUrls.value, ',');
    JoinThenCleanRoundTrip(a.imageUrls.value);
  }
}
