/**
 * The admin listings table: the search box's accent- and case-insensitive
 * filter, the sort by views, the reload, and the server-side token gate
 * with its fallback.
 */
module ListingsDashboard {
  import opened Wrappers
  import opened Text
  import opened Sequences
  import opened ServerGate
  import Query

  // ---- Normalisation: toLowerCase, NFD, then the combining marks removed ----

  /** U+0300 to U+036F, the combining diacritical marks the search strips. */
  predicate IsCombining(c: char) {
    '\U{0300}' <= c <= '\U{036F}'
  }

  /** Upper-case letters of Latin-1 (A to Z, U+00C0 to U+00DE without U+00D7). */
  predicate IsUpper(c: char) {
    ('A' <= c <= 'Z') || ('\U{00C0}' <= c <= '\U{00DE}' && c != '\U{00D7}')
  }

  /** Lower-case letters of Latin-1 that have an upper-case partner there. */
  predicate IsLowerPartner(c: char) {
    ('a' <= c <= 'z') || ('\U{00E0}' <= c <= '\U{00FE}' && c != '\U{00F7}')
  }

  /** `toLowerCase` on Latin-1. */
  function Lower(c: char): (r: char)
    ensures !IsUpper(r)
    ensures IsUpper(c) ==> IsLowerPartner(r)
    ensures !IsUpper(c) ==> r == c
  {
    if IsUpper(c) then (c as int + 32) as char else c
  }

  /** `toUpperCase` on one character, for the Latin-1 letters with a one-character partner (see `UpperCase`). */
  function Upper(c: char): (r: char)
    ensures IsLowerPartner(c) ==> IsUpper(r) && Lower(r) == c
    ensures !IsLowerPartner(c) ==> r == c
  {
    if IsLowerPartner(c) then (c as int - 32) as char else c
  }

  /** The base letter NFD leaves in front of the marks of a lower-case Latin-1 letter. */
  function Base(c: char): (r: char)
    ensures r == c || ('a' <= r <= 'z')
  {
    if '\U{00E0}' <= c <= '\U{00E5}' then 'a'
    else if c == '\U{00E7}' then 'c'
    else if '\U{00E8}' <= c <= '\U{00EB}' then 'e'
    else if '\U{00EC}' <= c <= '\U{00EF}' then 'i'
    else if c == '\U{00F1}' then 'n'
    else if '\U{00F2}' <= c <= '\U{00F6}' then 'o'
    else if '\U{00F9}' <= c <= '\U{00FC}' then 'u'
    else if c == '\U{00FD}' || c == '\U{00FF}' then 'y'
    else c
  }

  /** One character of the normalised text: a mark vanishes, a letter becomes its lower-case base. */
  function FoldChar(c: char): (r: string)
    ensures |r| <= 1
    ensures IsCombining(c) <==> r == []
  {
    if IsCombining(c) then [] else [Base(Lower(c))]
  }

  /** The normalisation applied to both sides of the search. */
  function Fold(s: string): string {
    if s == [] then [] else FoldChar(s[0]) + Fold(s[1..])
  }

  lemma {:induction false} FoldConcat(a: string, b: string)
    ensures Fold(a + b) == Fold(a) + Fold(b)
  {
    if a == [] {
      assert a + b == b;
    } else {
      assert (a + b)[1..] == a[1..] + b;
      FoldConcat(a[1..], b);
    }
  }

  /** A folded character folds to itself. */
  lemma FoldCharStable(c: char)
    requires !IsCombining(c)
    ensures FoldChar(Base(Lower(c))) == [Base(Lower(c))]
  {
  }

  /** Normalising twice is normalising once. */
  lemma {:induction false} FoldIdempotent(s: string)
    ensures Fold(Fold(s)) == Fold(s)
  {
    if s != [] {
      FoldIdempotent(s[1..]);
      FoldConcat(FoldChar(s[0]), Fold(s[1..]));
      if !IsCombining(s[0]) {
        FoldCharStable(s[0]);
        var x: string := [Base(Lower(s[0]))];
        assert x[1..] == [];
      }
    }
  }

  /**
   * `toUpperCase` on every character, for the Latin-1 letters `Upper` pairs.
   * It is a stand-in, not the engine's function: JavaScript upper-cases 'ß'
   * to "SS" and 'µ' to 'Μ', which this one leaves alone, so the case
   * lemmas below hold for this function only.
   */
  function UpperCase(s: string): (r: string)
    ensures |r| == |s|
  {
    if s == [] then [] else [Upper(s[0])] + UpperCase(s[1..])
  }

  /** Upper-casing does not change the normalised text: the match ignores case. */
  lemma {:induction false} FoldIgnoresCase(s: string)
    ensures Fold(UpperCase(s)) == Fold(s)
  {
    if s != [] {
      FoldIgnoresCase(s[1..]);
      assert Lower(Upper(s[0])) == Lower(s[0]);
      assert UpperCase(s)[1..] == UpperCase(s[1..]);
    }
  }

  /** A combining mark anywhere is ignored: the match ignores accents typed as marks. */
  lemma FoldDropsMarks(a: string, m: char, b: string)
    requires IsCombining(m)
    ensures Fold(a + [m] + b) == Fold(a + b)
  {
    var mark: string := [m];
    assert Fold(mark) == [] by {
      assert mark[1..] == [];
      assert Fold(mark) == FoldChar(m) + Fold([]);
    }
    FoldConcat(a, mark);
    FoldConcat(a + mark, b);
    FoldConcat(a, b);
  }

  /** A precomposed accented capital and its plain lower-case letter normalise alike. */
  lemma AccentedCapitalFolds()
    ensures Fold("S\U{00C3}O") == Fold("sao") == "sao"
  {
    assert "S\U{00C3}O"[1..][1..][1..] == [];
    assert "sao"[1..][1..][1..] == [];
  }

  // ---- The table rows and the search ----

  /** The fields of a listing the table's search and sort read. */
  datatype Row = Row(id: nat, title: Option<string>, realtorName: string, views: int)

  /** The search text occurs in the normalised title, id or realtor name. */
  predicate Matches(row: Row, input: string) {
    var needle := Fold(input);
    (row.title.Some? && Contains(Fold(row.title.value), needle))
    || Contains(Fold(DecimalString(row.id)), needle)
    || Contains(Fold(row.realtorName), needle)
  }

  /** `filterData`: every row for an empty input, otherwise the matching rows in order. */
  function FilterRows(rows: seq<Row>, input: string): (r: seq<Row>)
    ensures forall x :: x in r <==> x in rows && (input == "" || Matches(x, input))
    ensures forall x ::
      multiset(r)[x] == (if input == "" || Matches(x, input) then multiset(rows)[x] else 0)
    ensures SubsequenceOf(r, rows)
    ensures input == "" ==> r == rows
  {
    if input == "" then
      FilterAll(rows, (x: Row) => true);
      FilterSubsequence(rows, (x: Row) => true);
      rows
    else
      FilterSubsequence(rows, (x: Row) => Matches(x, input));
      assert forall x: Row ::
        multiset(Filter(rows, (x: Row) => Matches(x, input)))[x] ==
        (if Matches(x, input) then multiset(rows)[x] else 0) by {
        forall x: Row {
          FilterMultiset(rows, (x: Row) => Matches(x, input), x);
        }
      }
      Filter(rows, (x: Row) => Matches(x, input))
  }

  /** The empty-input shortcut agrees with filtering: every row matches the empty text. */
  lemma EmptyInputMatchesAll(row: Row)
    ensures Matches(row, "")
  {
    assert Fold("") == "";
    ContainsEmpty(Fold(row.realtorName));
  }

  /** Typing the search in capitals finds the same rows. */
  lemma SearchIgnoresCase(rows: seq<Row>, input: string)
    ensures forall x :: x in FilterRows(rows, UpperCase(input)) <==> x in FilterRows(rows, input)
  {
    FoldIgnoresCase(input);
    forall x | x in rows && input == "" && UpperCase(input) == "" ensures Matches(x, input) {
      EmptyInputMatchesAll(x);
    }
    forall x | x in rows ensures Matches(x, UpperCase(input)) == Matches(x, input) {
    }
    forall x | x in rows && input == "" ensures Matches(x, UpperCase(input)) {
      EmptyInputMatchesAll(x);
    }
  }

  // ---- The sort ----

  /** Views never increase down the table. */
  predicate NonIncreasing(rows: seq<Row>) {
    forall i, j :: 0 <= i < j < |rows| ==> rows[i].views >= rows[j].views
  }

  /**
   * The in-place `sort` with the comparator that puts more views first
   * (rows with equal views keep no particular order: the comparator never
   * answers 0).
   */
  method SortByViews(a: array<Row>)
    modifies a
    ensures NonIncreasing(a[..])
    ensures multiset(a[..]) == multiset(old(a[..]))
  {
    var i := 0;
    while i < a.Length
      invariant 0 <= i <= a.Length
      invariant forall k, l :: 0 <= k < l < i ==> a[k].views >= a[l].views
      invariant multiset(a[..]) == multiset(old(a[..]))
    {
      InsertAt(a, i);
      i := i + 1;
    }
  }

  /** Moves `a[i]` left past every row with fewer views, so `a[..i + 1]` is in order. */
  method InsertAt(a: array<Row>, i: int)
    requires 0 <= i < a.Length
    requires forall k, l :: 0 <= k < l < i ==> a[k].views >= a[l].views
    modifies a
    ensures forall k, l :: 0 <= k < l <= i ==> a[k].views >= a[l].views
    ensures multiset(a[..]) == multiset(old(a[..]))
  {
    var j := i;
    while j > 0 && a[j - 1].views < a[j].views
      invariant 0 <= j <= i
      invariant forall k, l :: 0 <= k < l <= i && l != j ==> a[k].views >= a[l].views
      invariant multiset(a[..]) == multiset(old(a[..]))
    {
      Swap(a, j - 1, j);
      j := j - 1;
    }
  }

  /** Exchanges two rows; the multiset of rows stays the same. */
  method Swap(a: array<Row>, p: int, q: int)
    requires 0 <= p < q < a.Length
    modifies a
    ensures a[..] == old(a[..])[p := old(a[q])][q := old(a[p])]
    ensures multiset(a[..]) == multiset(old(a[..]))
  {
    a[p], a[q] := a[q], a[p];
  }

  /** The rows the table shows: the search's result, most viewed first. */
  method DisplayedRows(rows: seq<Row>, input: string) returns (shown: seq<Row>)
    ensures NonIncreasing(shown)
    ensures multiset(shown) == multiset(FilterRows(rows, input))
  {
    var filtered := FilterRows(rows, input);
    var a := new Row[|filtered|](i requires 0 <= i < |filtered| => filtered[i]);
    assert a[..] == filtered;
    SortByViews(a);
    shown := a[..];
  }

  // ---- The page ----

  /** What the table gets: rows, or the `TypeError` of `.sort` on `undefined`. */
  datatype Table = Crash | Rows(rows: seq<Row>)

  /** The rows a page given `null` data would show, were it to treat `null` as no rows. */
  function RowsOrEmpty(data: Option<seq<Row>>): (r: seq<Row>)
    ensures data.Some? ==> r == data.value
    ensures data.None? ==> r == []
  {
    if data.Some? then data.value else []
  }

  /** `getServerSideProps`: no token, back to `/`; a failed fetch gives `propertiesData: null`. */
  function ServerSideProps(token: Option<string>, fetched: Option<seq<Row>>): (r: PageResult<Option<seq<Row>>>)
    ensures r.Redirect? <==> !Query.Filled(token)
    ensures r.Redirect? ==> r.destination == "/" && !r.permanent
    ensures r.Props? ==> r.props == fetched
  {
    Gate(token, fetched)
  }

  /** The page component's state. */
  class Dashboard {
    var data: Option<seq<Row>>
    var filterInput: string
    var loading: bool

    constructor (propertiesData: Option<seq<Row>>)
      ensures data == propertiesData && filterInput == "" && !loading
    {
      data := propertiesData;
      filterInput := "";
      loading := false;
    }

    /** The search box's `onChange`. */
    method SetFilterInput(input: string)
      modifies this
      ensures filterInput == input && data == old(data) && loading == old(loading)
    {
      filterInput := input;
    }

    /**
     * `getData` (the reload after an action): on success the rows are
     * replaced by the response as a whole; on failure they stay; either way
     * loading ends.
     */
    method GetData(response: Option<seq<Row>>)
      modifies this
      ensures response.Some? ==> data == response
      ensures response.None? ==> data == old(data)
      ensures filterInput == old(filterInput) && !loading
    {
      loading := true;
      if response.Some? {
        data := response;
      }
      loading := false;
    }

    /** What the table is given, as the page computes it: `null` data crashes. */
    method Render() returns (t: Table)
      ensures t.Crash? <==> data.None?
      ensures t.Rows? ==> NonIncreasing(t.rows)
      ensures t.Rows? ==> multiset(t.rows) == multiset(FilterRows(data.value, filterInput))
    {
      if data.None? {
        t := Crash;
      } else {
        var shown := DisplayedRows(data.value, filterInput);
        t := Rows(shown);
      }
    }

    /** The table with `null` data read as no rows: it always renders. */
    method RenderFixed() returns (shown: seq<Row>)
      ensures NonIncreasing(shown)
      ensures multiset(shown) == multiset(FilterRows(RowsOrEmpty(data), filterInput))
      ensures data.None? ==> shown == []
    {
      shown := DisplayedRows(RowsOrEmpty(data), filterInput);
      if data.None? {
        assert multiset(shown) == multiset{};
      }
    }
  }

  /** A signed-in visit whose fetch fails hands the page `null` data. */
  lemma FailedFetchGivesNull(token: string)
    requires token != ""
    ensures ServerSideProps(Some(token), None) == Props(None)
  {
  }
}
