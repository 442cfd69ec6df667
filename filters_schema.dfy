/**
 * The filter form record and its zod schema: seven optional strings, with a
 * transform on the two price fields that puts a comma before every trailing
 * group of three digits, as `value.replace(/\B(?=(\d{3})+(?!\d))/g, ',')`
 * does.
 */
module FiltersSchema {
  import opened Wrappers
  import opened Text

  /** `TypeFormData`: every field is optional; `propertyType` is the schema's `type`. */
  datatype FilterForm = FilterForm(
    code: Option<string>,
    propertyType: Option<string>,
    city: Option<string>,
    neighborhood: Option<string>,
    financing: Option<string>,
    minPrice: Option<string>,
    maxPrice: Option<string>)

  /** The two price inputs. */
  datatype PriceField = MinPrice | MaxPrice

  /** `setValue(field, v)` on a price field: the other six fields keep their values. */
  function WithPrice(f: FilterForm, field: PriceField, v: string): FilterForm
  {
    match field
    case MinPrice => f.(minPrice := Some(v))
    case MaxPrice => f.(maxPrice := Some(v))
  }

  /** A form nobody has typed in: every field undefined, which the schema accepts. */
  const EmptyForm := FilterForm(None, None, None, None, None, None, None)

  /** Number of consecutive digits starting at index `i`. */
  function RunLength(s: string, i: nat): (n: nat)
    requires i <= |s|
    ensures i + n <= |s|
    ensures forall k :: i <= k < i + n ==> IsDigit(s[k])
    ensures i + n < |s| ==> !IsDigit(s[i + n])
    decreases |s| - i
  {
    if i < |s| && IsDigit(s[i]) then 1 + RunLength(s, i + 1) else 0
  }

  /**
   * The pattern `\B(?=(\d{3})+(?!\d))` matches at position `i` (just before
   * `s[i]`): the digits from `i` on come in whole groups of three up to the
   * end of their run, and `i` is not a word boundary, so the character
   * before it is a word character too (`s[i]` is a digit).
   */
  predicate CommaBefore(s: string, i: nat)
    requires i <= |s|
  {
    0 < i && IsWordChar(s[i - 1]) && RunLength(s, i) >= 3 && RunLength(s, i) % 3 == 0
  }

  /** Number of positions from `i` on where a comma goes. */
  function CommasFrom(s: string, i: nat): nat
    requires i <= |s|
    decreases |s| - i
  {
    if i == |s| then 0 else (if CommaBefore(s, i) then 1 else 0) + CommasFrom(s, i + 1)
  }

  /** What the rewrite puts in front of `s[i]`: a comma or nothing. */
  function Sep(s: string, i: nat): (r: string)
    requires i <= |s|
    ensures r == [] || r == [',']
  {
    if CommaBefore(s, i) then [','] else []
  }

  /** The rewritten text of `s[i..]`. */
  function GroupFrom(s: string, i: nat): string
    requires i <= |s|
    decreases |s| - i
  {
    if i == |s| then [] else Sep(s, i) + [s[i]] + GroupFrom(s, i + 1)
  }

  lemma {:induction false} GroupFromLength(s: string, i: nat)
    requires i <= |s|
    ensures |GroupFrom(s, i)| == |s| - i + CommasFrom(s, i)
    decreases |s| - i
  {
    if i < |s| {
      GroupFromLength(s, i + 1);
    }
  }

  lemma {:induction false} GroupFromKeepsCharacters(s: string, i: nat)
    requires i <= |s|
    ensures RemoveAll(GroupFrom(s, i), ',') == RemoveAll(s[i..], ',')
    decreases |s| - i
  {
    if i < |s| {
      GroupFromKeepsCharacters(s, i + 1);
      GroupFromStep(s, i);
      CommaStep(Sep(s, i), s[i], GroupFrom(s, i + 1), s[i + 1..]);
    }
  }

  /** One step of the rewrite, and of the input, at a position before the end. */
  lemma GroupFromStep(s: string, i: nat)
    requires i < |s|
    ensures GroupFrom(s, i) == Sep(s, i) + ([s[i]] + GroupFrom(s, i + 1))
    ensures s[i..] == [s[i]] + s[i + 1..]
  {
  }

  /** One step of the rewrite: an optional comma in front changes nothing once commas go. */
  lemma CommaStep(comma: string, x: char, tail: string, rest: string)
    requires comma == [] || comma == [',']
    requires RemoveAll(tail, ',') == RemoveAll(rest, ',')
    ensures RemoveAll(comma + ([x] + tail), ',') == RemoveAll([x] + rest, ',')
  {
    RemoveAllConcat(comma, [x] + tail, ',');
    RemoveAllCons(x, tail, ',');
    RemoveAllCons(x, rest, ',');
    if comma != [] {
      RemoveAllCons(',', [], ',');
    }
  }

  /**
   * The price transform: it only inserts commas (deleting them from the
   * output gives what deleting them from the input gives), one per matching
   * position, never in front of the first character and never after the
   * last one.
   */
  function GroupThousands(s: string): (r: string)
    ensures RemoveAll(r, ',') == RemoveAll(s, ',')
    ensures |r| == |s| + CommasFrom(s, 0)
    ensures s != [] ==> r[0] == s[0] && r[|r| - 1] == s[|s| - 1]
  {
    assert s[0..] == s;
    GroupFromKeepsCharacters(s, 0);
    GroupFromLength(s, 0);
    if s != [] then LastCharKept(s, 0); GroupFrom(s, 0) else GroupFrom(s, 0)
  }

  lemma {:induction false} LastCharKept(s: string, i: nat)
    requires i < |s|
    ensures GroupFrom(s, i)[|GroupFrom(s, i)| - 1] == s[|s| - 1]
    decreases |s| - i
  {
    GroupFromLength(s, i + 1);
    if i + 1 < |s| {
      LastCharKept(s, i + 1);
    }
  }

  /** The zod transform on an optional price: `undefined` stays `undefined`. */
  function TransformPrice(p: Option<string>): (r: Option<string>)
    ensures r.Some? <==> p.Some?
    ensures r.Some? ==> RemoveAll(r.value, ',') == RemoveAll(p.value, ',')
  {
    match p
    case None => None
    case Some(v) => Some(GroupThousands(v))
  }

  /**
   * `defaultFiltersSchema.parse`: the five plain fields pass through and
   * `minPrice` and `maxPrice` go through the same transform.
   */
  function Parse(f: FilterForm): (r: FilterForm)
    ensures r.code == f.code && r.propertyType == f.propertyType && r.city == f.city
    ensures r.neighborhood == f.neighborhood && r.financing == f.financing
    ensures r.minPrice.Some? <==> f.minPrice.Some?
    ensures r.maxPrice.Some? <==> f.maxPrice.Some?
  {
    f.(minPrice := TransformPrice(f.minPrice), maxPrice := TransformPrice(f.maxPrice))
  }

  /** Both price fields use one transform: equal inputs give equal outputs. */
  lemma SamePriceTransform(f: FilterForm)
    requires f.minPrice == f.maxPrice
    ensures Parse(f).minPrice == Parse(f).maxPrice
  {
  }

  // ---- Digit runs without neighbours: the comma count ----

  lemma {:induction false} RunLengthOfDigits(s: string, i: nat)
    requires AllDigits(s) && i <= |s|
    ensures RunLength(s, i) == |s| - i
  {
  }

  lemma {:induction false} DigitCommasFrom(s: string, i: nat)
    requires AllDigits(s) && 1 <= i <= |s|
    ensures CommasFrom(s, i) == (|s| - i) / 3
    decreases |s| - i
  {
    if i < |s| {
      DigitCommasFrom(s, i + 1);
      RunLengthOfDigits(s, i);
      assert CommaBefore(s, i) <==> (|s| - i) % 3 == 0 && |s| - i >= 3;
    }
  }

  /**
   * A string of n >= 1 digits receives exactly (n - 1) / 3 commas, none in
   * front, and deleting them gives the digits back.
   */
  lemma DigitRunCommas(s: string)
    requires AllDigits(s) && s != []
    ensures Count(GroupThousands(s), ',') == (|s| - 1) / 3
    ensures GroupThousands(s)[0] != ','
    ensures RemoveAll(GroupThousands(s), ',') == s
  {
    DigitCommasFrom(s, 1);
    RemoveAllDeletes(GroupThousands(s), ',');
    assert !CommaBefore(s, 0);
    assert ',' !in s by { assert forall k :: 0 <= k < |s| ==> s[k] != ','; }
    RemoveAllAbsent(s, ',');
  }

  /** A comma at every fourth position counted from the end, and nowhere else. */
  predicate CommasEveryFourth(r: string) {
    forall k :: 0 <= k < |r| ==> (r[k] == ',' <==> (|r| - k) % 4 == 0)
  }

  /**
   * Inside a run of digits the rewrite from `i` on puts a comma at every
   * fourth position counted from the end, and nowhere else.
   */
  lemma {:induction false} DigitGroupsFrom(s: string, i: nat)
    requires AllDigits(s) && 1 <= i <= |s|
    ensures |GroupFrom(s, i)| == (|s| - i) + (|s| - i) / 3
    ensures CommasEveryFourth(GroupFrom(s, i))
    decreases |s| - i
  {
    if i < |s| {
      var m := |s| - i;
      var tail := GroupFrom(s, i + 1);
      DigitGroupsFrom(s, i + 1);
      GroupFromStep(s, i);
      CommaInsideRun(s, i);
      GroupLengthStep(m);
      assert IsDigit(s[i]);
      if m % 3 == 0 {
        assert GroupFrom(s, i) == [','] + ([s[i]] + tail);
        PrependComma(s[i], tail);
      } else {
        assert GroupFrom(s, i) == [s[i]] + tail;
        PrependNonComma(s[i], tail);
      }
    }
  }

  /** Inside a digit run a comma goes in front of `s[i]` exactly when a multiple of three digits is left. */
  lemma CommaInsideRun(s: string, i: nat)
    requires AllDigits(s) && 1 <= i < |s|
    ensures Sep(s, i) == if (|s| - i) % 3 == 0 then [','] else []
  {
    RunLengthOfDigits(s, i);
    assert IsDigit(s[i - 1]);
  }

  /** With m digits left, m + m / 3 characters: a step adds a comma and a digit exactly when 3 divides m. */
  lemma GroupLengthStep(m: nat)
    requires m >= 1
    ensures m % 3 == 0 ==> m + m / 3 == (m - 1) + (m - 1) / 3 + 2 && (m + m / 3) % 4 == 0
    ensures m % 3 != 0 ==> m + m / 3 == (m - 1) + (m - 1) / 3 + 1 && (m + m / 3) % 4 != 0
  {
    var q := m / 3;
    var e := m % 3;
    assert m == 3 * q + e;
    assert m + m / 3 == 4 * q + e;
    if e != 0 {
      assert (m - 1) / 3 == q;
    } else {
      assert (m - 1) / 3 == q - 1;
    }
  }

  /** A comma and a non-comma in front keep the pattern when the new length is on the grid. */
  lemma PrependComma(d: char, tail: string)
    requires d != ',' && (|tail| + 2) % 4 == 0
    requires CommasEveryFourth(tail)
    ensures CommasEveryFourth([','] + ([d] + tail))
  {
    var g := [','] + ([d] + tail);
    forall k | 0 <= k < |g| ensures g[k] == ',' <==> (|g| - k) % 4 == 0 {
      if k >= 2 {
        assert g[k] == tail[k - 2];
      } else if k == 1 {
        assert g[1] == d;
      }
    }
  }

  /** One digit followed by m digits grouped in threes is never a whole number of groups of four. */
  lemma LeadingGroupLength(m: nat)
    ensures (1 + m + m / 3) % 4 != 0
  {
    var q := m / 3;
    var e := m % 3;
    assert 1 + m + m / 3 == 4 * q + (1 + e);
  }

  /** A non-comma in front keeps "a comma at every fourth position from the end" when the length stays off the grid. */
  lemma PrependNonComma(d: char, tail: string)
    requires d != ',' && (|tail| + 1) % 4 != 0
    requires CommasEveryFourth(tail)
    ensures CommasEveryFourth([d] + tail)
  {
    var g := [d] + tail;
    forall k | 0 <= k < |g| ensures g[k] == ',' <==> (|g| - k) % 4 == 0 {
      if k > 0 {
        assert g[k] == tail[k - 1];
      }
    }
  }

  /**
   * Where the commas go: for a string of n >= 1 digits the transform puts a
   * comma at every fourth position counted from the end and nowhere else,
   * so each comma stands in front of a group of three digits and the first
   * group has one to three. With the digits kept in order this fixes the
   * output completely.
   */
  lemma DigitGrouping(s: string)
    requires AllDigits(s) && s != []
    ensures RemoveAll(GroupThousands(s), ',') == s
    ensures |GroupThousands(s)| == |s| + (|s| - 1) / 3
    ensures forall k :: 0 <= k < |GroupThousands(s)| ==>
      (GroupThousands(s)[k] == ',' <==> (|GroupThousands(s)| - k) % 4 == 0)
  {
    DigitRunCommas(s);
    DigitGroupsWhole(s);
  }

  /** The whole rewrite of a digit run, stated on `GroupFrom` so that the transform's own contract stays out of the way. */
  lemma DigitGroupsWhole(s: string)
    requires AllDigits(s) && s != []
    ensures |GroupFrom(s, 0)| == |s| + (|s| - 1) / 3
    ensures CommasEveryFourth(GroupFrom(s, 0))
  {
    var tail := GroupFrom(s, 1);
    DigitGroupsFrom(s, 1);
    GroupFromStep(s, 0);
    assert Sep(s, 0) == [];
    assert GroupFrom(s, 0) == [s[0]] + tail;
    assert |tail| == (|s| - 1) + (|s| - 1) / 3;
    LeadingGroupLength(|s| - 1);
    assert IsDigit(s[0]);
    PrependNonComma(s[0], tail);
  }

  // ---- Strings of digits and dots: unchanged exactly when no run is longer than three ----

  /** What the price mask produces: digits and thousands dots. */
  predicate PriceLike(s: string) {
    forall k :: 0 <= k < |s| ==> IsDigit(s[k]) || s[k] == '.'
  }

  /** No run of digits is longer than three. */
  predicate ShortRuns(s: string) {
    forall i :: 0 <= i <= |s| ==> RunLength(s, i) <= 3
  }

  lemma {:induction false} RunLengthShift(s: string, i: nat, j: nat)
    requires i <= j <= |s| && j <= i + RunLength(s, i)
    ensures RunLength(s, j) == RunLength(s, i) - (j - i)
    decreases j - i
  {
    if i < j {
      RunLengthShift(s, i + 1, j);
    }
  }

  lemma {:induction false} NoCommaIdentity(s: string, i: nat)
    requires i <= |s|
    requires forall j :: i <= j < |s| ==> !CommaBefore(s, j)
    ensures GroupFrom(s, i) == s[i..]
    decreases |s| - i
  {
    if i < |s| {
      assert !CommaBefore(s, i);
      NoCommaIdentity(s, i + 1);
      assert s[i..] == [s[i]] + s[i + 1..];
    }
  }

  lemma {:induction false} CommasFromPositive(s: string, i: nat, j: nat)
    requires i <= j < |s| && CommaBefore(s, j)
    ensures CommasFrom(s, i) >= 1
    decreases j - i
  {
    if i < j {
      CommasFromPositive(s, i + 1, j);
    }
  }

  /**
   * On a string of digits and dots the transform is the identity exactly
   * when every digit run has at most three digits, so dot-grouped prices
   * such as "350.000" pass through unchanged and "1234" does not.
   */
  lemma UnchangedIffShortRuns(s: string)
    requires PriceLike(s)
    ensures GroupThousands(s) == s <==> ShortRuns(s)
  {
    if ShortRuns(s) {
      forall j | 0 <= j < |s| ensures !CommaBefore(s, j) {
        if 0 < j && IsWordChar(s[j - 1]) {
          assert IsDigit(s[j - 1]);
          assert RunLength(s, j - 1) == 1 + RunLength(s, j);
        }
      }
      NoCommaIdentity(s, 0);
      assert s[0..] == s;
    } else {
      var i :| 0 <= i <= |s| && RunLength(s, i) > 3;
      var len := RunLength(s, i);
      var j := i + 1 + (len - 1) % 3;
      RunLengthShift(s, i, j);
      assert RunLength(s, j) == len - 1 - (len - 1) % 3;
      assert RunLength(s, j) % 3 == 0;
      assert IsDigit(s[j - 1]);
      assert CommaBefore(s, j);
      CommasFromPositive(s, 0, j);
    }
  }

  /** A dot-grouped price passes through unchanged. */
  lemma DotGroupedUnchanged()
    ensures GroupThousands("350.000") == "350.000"
  {
    var s := "350.000";
    assert PriceLike(s);
    assert RunLength(s, 7) == 0;
    assert RunLength(s, 6) == 1;
    assert RunLength(s, 5) == 2;
    assert RunLength(s, 4) == 3;
    assert RunLength(s, 3) == 0;
    assert RunLength(s, 2) == 1;
    assert RunLength(s, 1) == 2;
    assert RunLength(s, 0) == 3;
    assert ShortRuns(s);
    UnchangedIffShortRuns(s);
  }

  /** A plain four-digit price does not. */
  lemma FourDigitsChanged()
    ensures GroupThousands("1234") != "1234"
  {
    var s := "1234";
    assert AllDigits(s);
    RunLengthOfDigits(s, 0);
    assert PriceLike(s);
    UnchangedIffShortRuns(s);
  }
}
