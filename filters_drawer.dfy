/**
 * The filter drawer of the listings page: its form, the query it submits,
 * the select-to-clear financing toggle, the reset, and the decoding of the
 * URL query back into the form.
 */
module FiltersDrawer {
  import opened Wrappers
  import opened Text
  import opened Query
  import opened EnumTranslation
  import opened FiltersSchema

  /** The `type` entry: the code for the label, or `null` when the label has none. */
  function TypeValue(display: Option<string>): (v: QueryValue)
    ensures v.Str? <==> ReverseTranslate(display).Some?
    ensures v.Str? ==> v.s == ReverseTranslate(display).value && Translate(v.s) == display
    ensures !v.Str? ==> v == Null
  {
    match ReverseTranslate(display)
    case Some(code) => Str(code)
    case None => Null
  }

  /** The keys the drawer can put in a query. */
  const DrawerKeys: set<string> :=
    {"page", "code", "minPrice", "maxPrice", "financeable", "city", "type", "neighborhood"}

  /**
   * The query `onSubmit` navigates with, built from the (parsed) form data:
   * `page` is always 1, every other key is there exactly when its field is
   * truthy, prices lose their dots, and `type` carries the code (or `null`),
   * guarded by the label rather than by its translation.
   */
  function DrawerQuery(data: FilterForm): (q: QueryObject)
    ensures q.Keys <= DrawerKeys
    ensures "page" in q && q["page"] == Number(1)
    ensures "code" in q <==> Filled(data.code)
    ensures "minPrice" in q <==> StrippedPrice(data.minPrice) != ""
    ensures "maxPrice" in q <==> StrippedPrice(data.maxPrice) != ""
    ensures "financeable" in q <==> Filled(data.financing)
    ensures "city" in q <==> Filled(data.city)
    ensures "type" in q <==> Filled(data.propertyType)
    ensures "neighborhood" in q <==> Filled(data.neighborhood)
  {
    var minPrice := StrippedPrice(data.minPrice);
    var maxPrice := StrippedPrice(data.maxPrice);
    var q := map["page" := Number(1)];
    var q := AddIf(q, Filled(data.code), "code", Str(TextOf(data.code)));
    var q := AddIf(q, minPrice != "", "minPrice", Str(minPrice));
    var q := AddIf(q, maxPrice != "", "maxPrice", Str(maxPrice));
    var q := AddIf(q, Filled(data.financing), "financeable", Str(TextOf(data.financing)));
    var q := AddIf(q, Filled(data.city), "city", Str(TextOf(data.city)));
    var q := AddIf(q, Filled(data.propertyType), "type", TypeValue(data.propertyType));
    AddIf(q, Filled(data.neighborhood), "neighborhood", Str(TextOf(data.neighborhood)))
  }

  /**
   * The values of a submitted query: each field as typed, prices without
   * their dots, `type` as its code or `null`.
   */
  lemma DrawerQueryValues(data: FilterForm)
    ensures var q := DrawerQuery(data);
      && ("code" in q ==> q["code"] == Str(data.code.value))
      && ("minPrice" in q ==> q["minPrice"] == Str(StrippedPrice(data.minPrice)))
      && ("maxPrice" in q ==> q["maxPrice"] == Str(StrippedPrice(data.maxPrice)))
      && ("financeable" in q ==> q["financeable"] == Str(data.financing.value))
      && ("city" in q ==> q["city"] == Str(data.city.value))
      && ("type" in q ==> q["type"] == TypeValue(data.propertyType))
      && ("neighborhood" in q ==> q["neighborhood"] == Str(data.neighborhood.value))
  {
  }

  /** No key of a submitted query ever carries the empty string. */
  lemma NoEmptyStrings(data: FilterForm, k: string)
    requires k in DrawerQuery(data)
    ensures DrawerQuery(data)[k] != Str("")
  {
    var q := DrawerQuery(data);
    DrawerQueryValues(data);
    assert k in DrawerKeys;
    if k == "type" {
      if q[k].Str? {
        assert Translate(q[k].s) == data.propertyType;
      }
    } else if k == "minPrice" || k == "maxPrice" {
    } else if k == "page" {
      assert q[k] == Number(1);
    } else {
      assert k in {"code", "financeable", "city", "neighborhood"};
    }
  }

  /** `handleChangeFinanceable`: choosing the selected option again clears it. */
  function Toggle(current: Option<string>, choice: string): (r: Option<string>)
    ensures r.Some?
    ensures r == Some("") <==> current == Some(choice) || choice == ""
    ensures choice != "" ==> (r == Some(choice) <==> current != Some(choice))
  {
    if current == Some(choice) then Some("") else Some(choice)
  }

  /**
   * Two clicks on the same option restore the selection when it was that
   * option or empty; a different option the first click replaced is lost.
   */
  lemma ToggleTwice(current: Option<string>, choice: string)
    requires choice != ""
    ensures (Toggle(Toggle(current, choice), choice) == current) <==>
            (current == Some(choice) || current == Some(""))
  {
  }

  /** What `resetFilters` leaves in the form: `reset` replaces the whole record, so `code` is dropped. */
  const ResetForm := FilterForm(None, Some(""), Some(""), Some(""), Some(""), Some(""), Some(""))

  /** The only query `resetFilters` navigates with. */
  const ResetQuery: QueryObject := map["page" := Number(1)]

  /** Submitting the reset form would give the same query as the reset itself. */
  lemma ResetFormEncodesToResetQuery()
    ensures DrawerQuery(Parse(ResetForm)) == ResetQuery
  {
    var q := DrawerQuery(Parse(ResetForm));
    assert GroupThousands("") == "";
    assert q.Keys == {"page"};
  }

  /**
   * `setFilterValues`: each field whose key is truthy in the URL query is set
   * (the type through `Translate`, the prices through the price mask,
   * `financeable` into `financing`); every other field, and `code` always,
   * keeps its value.
   */
  function Decode(prior: FilterForm, u: UrlQuery, mask: string -> string): (r: FilterForm)
    ensures r.code == prior.code
    ensures Present(u, "type") ==> r.propertyType == Translate(u["type"])
    ensures !Present(u, "type") ==> r.propertyType == prior.propertyType
    ensures Present(u, "city") ==> r.city == Some(u["city"])
    ensures !Present(u, "city") ==> r.city == prior.city
    ensures Present(u, "neighborhood") ==> r.neighborhood == Some(u["neighborhood"])
    ensures !Present(u, "neighborhood") ==> r.neighborhood == prior.neighborhood
    ensures Present(u, "minPrice") ==> r.minPrice == Some(mask(u["minPrice"]))
    ensures !Present(u, "minPrice") ==> r.minPrice == prior.minPrice
    ensures Present(u, "maxPrice") ==> r.maxPrice == Some(mask(u["maxPrice"]))
    ensures !Present(u, "maxPrice") ==> r.maxPrice == prior.maxPrice
    ensures Present(u, "financeable") ==> r.financing == Some(u["financeable"])
    ensures !Present(u, "financeable") ==> r.financing == prior.financing
  {
    FilterForm(
      prior.code,
      if Present(u, "type") then Translate(u["type"]) else prior.propertyType,
      if Present(u, "city") then Some(u["city"]) else prior.city,
      if Present(u, "neighborhood") then Some(u["neighborhood"]) else prior.neighborhood,
      if Present(u, "financeable") then Some(u["financeable"]) else prior.financing,
      if Present(u, "minPrice") then Some(mask(u["minPrice"])) else prior.minPrice,
      if Present(u, "maxPrice") then Some(mask(u["maxPrice"])) else prior.maxPrice)
  }

  /** Navigating to the reset query leaves the form as it is. */
  lemma ResetQueryDecodesToNoChange(prior: FilterForm, mask: string -> string)
    ensures Decode(prior, ToUrl(ResetQuery), mask) == prior
  {
  }

  // ---- The round trip form -> query -> URL -> form ----

  /** A field that is either undefined or holds a non-empty string. */
  predicate UnsetOrFilled(v: Option<string>) {
    v.None? || v.value != ""
  }

  /**
   * A price the round trip can carry: the schema transform leaves it alone,
   * it has digits left once the dots go, and the price mask rebuilds it
   * from those digits.
   */
  predicate RoundTripPrice(v: Option<string>, mask: string -> string) {
    v.None? ||
    (GroupThousands(v.value) == v.value && RemoveAll(v.value, '.') != ""
     && mask(RemoveAll(v.value, '.')) == v.value)
  }

  /** Forms whose every filled field survives the trip. */
  predicate RoundTripForm(f: FilterForm, mask: string -> string) {
    && UnsetOrFilled(f.city) && UnsetOrFilled(f.neighborhood) && UnsetOrFilled(f.financing)
    && (f.propertyType.None? || IsReversibleLabel(f.propertyType.value))
    && RoundTripPrice(f.minPrice, mask) && RoundTripPrice(f.maxPrice, mask)
  }

  /** The form after decoding: the filled fields of `f`, the rest (and `code`) from `prior`. */
  function Overlay(prior: FilterForm, f: FilterForm): FilterForm {
    FilterForm(
      prior.code,
      if f.propertyType.Some? then f.propertyType else prior.propertyType,
      if f.city.Some? then f.city else prior.city,
      if f.neighborhood.Some? then f.neighborhood else prior.neighborhood,
      if f.financing.Some? then f.financing else prior.financing,
      if f.minPrice.Some? then f.minPrice else prior.minPrice,
      if f.maxPrice.Some? then f.maxPrice else prior.maxPrice)
  }

  /**
   * Submitting a form and decoding the URL it leads to restores every
   * filled field; `code` is never decoded, so it keeps its prior value.
   */
  lemma DrawerRoundTrip(f: FilterForm, prior: FilterForm, mask: string -> string)
    requires RoundTripForm(f, mask)
    ensures Decode(prior, ToUrl(DrawerQuery(Parse(f))), mask) == Overlay(prior, f)
  {
    assert Parse(f) == f;
    var q := DrawerQuery(f);
    DrawerQueryValues(f);
    PresentAfterUrl(q, "type");
    PresentAfterUrl(q, "city");
    PresentAfterUrl(q, "neighborhood");
    PresentAfterUrl(q, "minPrice");
    PresentAfterUrl(q, "maxPrice");
    PresentAfterUrl(q, "financeable");
  }

  /** The label `Comercial` is submitted as `type: null` and so never comes back. */
  lemma CommercialLostOnRoundTrip(f: FilterForm, prior: FilterForm, mask: string -> string)
    requires f.propertyType == Some("Comercial")
    ensures "type" in DrawerQuery(Parse(f)) && DrawerQuery(Parse(f))["type"] == Null
    ensures Decode(prior, ToUrl(DrawerQuery(Parse(f))), mask).propertyType == prior.propertyType
  {
  }

  /** The drawer's form state and its handlers. */
  class Drawer {
    var form: FilterForm

    constructor ()
      ensures form == EmptyForm
    {
      form := EmptyForm;
    }

    /** `handleInputChange`: the dots go, the mask rebuilds the price, the field is set. */
    method HandleInputChange(field: PriceField, raw: string, mask: string -> string)
      modifies this
      ensures form == WithPrice(old(form), field, mask(RemoveAll(raw, '.')))
    {
      var rawValue := RemoveAll(raw, '.');
      form := WithPrice(form, field, mask(rawValue));
    }

    /** `handleChangeFinanceable`. */
    method HandleChangeFinanceable(choice: string)
      modifies this
      ensures form == old(form).(financing := Toggle(old(form).financing, choice))
    {
      if form.financing == Some(choice) {
        form := form.(financing := Some(""));
      } else {
        form := form.(financing := Some(choice));
      }
    }

    /** `resetFilters`: returns the query it navigates with. */
    method ResetFilters() returns (q: QueryObject)
      modifies this
      ensures form == ResetForm && q == ResetQuery
    {
      form := ResetForm;
      q := map["page" := Number(1)];
    }

    /** `onSubmit`, as called by `handleSubmit` with the schema-parsed form data. */
    method OnSubmit() returns (q: QueryObject)
      ensures q == DrawerQuery(Parse(form))
      ensures "page" in q && q["page"] == Number(1)
    {
      q := DrawerQuery(Parse(form));
    }

    /** The effect that runs `setFilterValues` whenever the URL query changes. */
    method SetFilterValues(u: UrlQuery, mask: string -> string)
      modifies this
      ensures form == Decode(old(form), u, mask)
    {
      if Present(u, "type") {
        form := form.(propertyType := Translate(u["type"]));
      }
      if Present(u, "city") {
        form := form.(city := Some(u["city"]));
      }
      if Present(u, "neighborhood") {
        form := form.(neighborhood := Some(u["neighborhood"]));
      }
      if Present(u, "minPrice") {
        form := form.(minPrice := Some(mask(u["minPrice"])));
      }
      if Present(u, "maxPrice") {
        form := form.(maxPrice := Some(mask(u["maxPrice"])));
      }
      if Present(u, "financeable") {
        form := form.(financing := Some(u["financeable"]));
      }
    }
  }
}
