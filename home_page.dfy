/**
 * The home page search: its own encoding of the filter form into a query,
 * the digit-only price input, the search by listing code and the
 * translation of the fetched property types.
 */
module HomePage {
  import opened Wrappers
  import opened Text
  import opened Query
  import opened EnumTranslation
  import opened FiltersSchema
  import opened FiltersDrawer

  /**
   * The query the home page's `onSubmit` navigates with. Unlike the drawer's,
   * it keeps `financeable` whenever `financing` is not exactly the empty
   * string (so an `undefined` one gives `financeable: undefined`) and it has
   * no `neighborhood`.
   */
  function HomeQuery(data: FilterForm): (q: QueryObject)
    ensures q.Keys <= {"page", "code", "minPrice", "maxPrice", "financeable", "city", "type"}
    ensures "page" in q && q["page"] == Number(1)
    ensures "code" in q <==> Filled(data.code)
    ensures "minPrice" in q <==> StrippedPrice(data.minPrice) != ""
    ensures "maxPrice" in q <==> StrippedPrice(data.maxPrice) != ""
    ensures "financeable" in q <==> data.financing != Some("")
    ensures "city" in q <==> Filled(data.city)
    ensures "type" in q <==> Filled(data.propertyType)
  {
    var minPrice := StrippedPrice(data.minPrice);
    var maxPrice := StrippedPrice(data.maxPrice);
    var financeable := if data.financing.Some? then Str(data.financing.value) else Undefined;
    var q := map["page" := Number(1)];
    var q := AddIf(q, Filled(data.code), "code", Str(TextOf(data.code)));
    var q := AddIf(q, minPrice != "", "minPrice", Str(minPrice));
    var q := AddIf(q, maxPrice != "", "maxPrice", Str(maxPrice));
    var q := AddIf(q, data.financing != Some(""), "financeable", financeable);
    var q := AddIf(q, Filled(data.city), "city", Str(TextOf(data.city)));
    AddIf(q, Filled(data.propertyType), "type", TypeValue(data.propertyType))
  }

  /**
   * The values of the home page's query: as in the drawer's, except that an
   * `undefined` `financing` is sent as `undefined`.
   */
  lemma HomeQueryValues(data: FilterForm)
    ensures var q := HomeQuery(data);
      && ("code" in q ==> q["code"] == Str(data.code.value))
      && ("minPrice" in q ==> q["minPrice"] == Str(StrippedPrice(data.minPrice)))
      && ("maxPrice" in q ==> q["maxPrice"] == Str(StrippedPrice(data.maxPrice)))
      && ("financeable" in q && data.financing.None? ==> q["financeable"] == Undefined)
      && ("financeable" in q && data.financing.Some? ==> q["financeable"] == Str(data.financing.value))
      && ("city" in q ==> q["city"] == Str(data.city.value))
      && ("type" in q ==> q["type"] == TypeValue(data.propertyType))
  {
  }

  /**
   * The two encoders agree exactly on forms with no neighbourhood filled in
   * and a defined `financing`.
   */
  lemma HomeMatchesDrawer(data: FilterForm)
    ensures HomeQuery(data) == DrawerQuery(data) <==>
            !Filled(data.neighborhood) && data.financing.Some?
  {
    var h := HomeQuery(data);
    var d := DrawerQuery(data);
    HomeQueryValues(data);
    DrawerQueryValues(data);
    if !Filled(data.neighborhood) && data.financing.Some? {
      assert h.Keys == d.Keys;
      forall k | k in h ensures h[k] == d[k] {
      }
    } else if Filled(data.neighborhood) {
      assert "neighborhood" in d && "neighborhood" !in h;
    } else {
      assert "financeable" in h && "financeable" !in d;
    }
  }

  /**
   * An `undefined` `financing` reaches the URL as an empty `financeable`,
   * which the drawer's decoder then ignores.
   */
  lemma UndefinedFinancingIgnored(data: FilterForm, prior: FilterForm, mask: string -> string)
    requires data.financing.None?
    ensures "financeable" in ToUrl(HomeQuery(data)) && ToUrl(HomeQuery(data))["financeable"] == ""
    ensures Decode(prior, ToUrl(HomeQuery(data)), mask).financing == prior.financing
  {
    HomeQueryValues(data);
  }

  /** What the code lookup came back with. */
  datatype CodeLookup =
    | Threw                          // the request failed
    | Returned(count: Option<nat>)   // `response.data.data.length`, if there is such a list

  /** What `searchByCode` does. */
  datatype CodeSearch =
    | Navigate(query: QueryObject)   // `router.push` to `imoveis`
    | NotifyError                    // the error toast
    | LogOnly                        // the exception is logged

  /**
   * `searchByCode`: navigate with just the code exactly when the lookup
   * returned a non-empty list; otherwise an error toast, unless the request
   * threw.
   */
  function SearchByCode(code: Option<string>, lookup: CodeLookup): (r: CodeSearch)
    ensures r.Navigate? <==> lookup.Returned? && lookup.count.Some? && lookup.count.value > 0
    ensures r.LogOnly? <==> lookup.Threw?
    ensures r.Navigate? ==> r.query.Keys == {"code"}
    ensures r.Navigate? ==> r.query["code"] == (if code.Some? then Str(code.value) else Undefined)
  {
    match lookup
    case Threw => LogOnly
    case Returned(count) =>
      if count.Some? && count.value > 0 then
        Navigate(map["code" := if code.Some? then Str(code.value) else Undefined])
      else NotifyError
  }

  /**
   * The fetched property types shown in the select: each code through
   * `translateEnumProperty`, in order (an unknown code stays as an
   * `undefined` entry).
   */
  function TranslateTypes(codes: seq<string>): (r: seq<Option<string>>)
    ensures |r| == |codes|
    ensures forall i :: 0 <= i < |codes| ==> r[i] == Translate(codes[i])
  {
    if codes == [] then [] else [Translate(codes[0])] + TranslateTypes(codes[1..])
  }

  /** A list of known codes translates to labels only. */
  lemma {:induction false} KnownTypesAllLabelled(codes: seq<string>)
    requires forall i :: 0 <= i < |codes| ==> IsKnownCode(codes[i])
    ensures forall i :: 0 <= i < |codes| ==> TranslateTypes(codes)[i].Some?
  {
  }

  /** The home page's search form and its handlers. */
  class HomeSearch {
    var form: FilterForm

    constructor ()
      ensures form == EmptyForm
    {
      form := EmptyForm;
    }

    /** `handleInputChange`: everything but digits goes, then the price mask. */
    method HandleInputChange(field: PriceField, raw: string, mask: string -> string)
      modifies this
      ensures form == WithPrice(old(form), field, mask(KeepDigits(raw)))
    {
      var rawValue := KeepDigits(raw);
      form := WithPrice(form, field, mask(rawValue));
    }

    /** `onSubmit`, called with the schema-parsed form data. */
    method OnSubmit() returns (q: QueryObject)
      ensures q == HomeQuery(Parse(form))
      ensures "neighborhood" !in q
    {
      q := HomeQuery(Parse(form));
    }

    /** `searchByCode` on the current form. */
    method SearchCode(lookup: CodeLookup) returns (r: CodeSearch)
      ensures r == SearchByCode(Parse(form).code, lookup)
    {
      r := SearchByCode(Parse(form).code, lookup);
    }
  }
}
