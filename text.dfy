/**
 * String helpers shared by the listing front end: the regular-expression
 * rewrites it uses (`replace(/\./g, '')`, `replace(/\D/g, '')`),
 * `String.prototype.includes`, `String.prototype.split` with a one-character
 * separator, `Number.prototype.toString` and `parseInt`.
 */
module Text {
  import opened Wrappers

  /** `\d` in a JavaScript regular expression without the `u` flag. */
  predicate IsDigit(c: char) { '0' <= c <= '9' }

  /** `\w`: the characters on either side of which `\b` and `\B` look. */
  predicate IsWordChar(c: char) {
    IsDigit(c) || ('a' <= c <= 'z') || ('A' <= c <= 'Z') || c == '_'
  }

  predicate AllDigits(s: string) { forall k :: 0 <= k < |s| ==> IsDigit(s[k]) }

  /** Number of occurrences of `c` in `s`. */
  function Count(s: string, c: char): (n: nat)
    ensures n <= |s|
    ensures n == 0 <==> c !in s
  {
    if s == [] then 0 else (if s[0] == c then 1 else 0) + Count(s[1..], c)
  }

  /** `s.replace(/c/g, '')`: every occurrence of `c` deleted, the rest kept in order. */
  function RemoveAll(s: string, c: char): string
  {
    if s == [] then [] else (if s[0] == c then [] else [s[0]]) + RemoveAll(s[1..], c)
  }

  /** No `c` is left, and exactly `Count(s, c)` characters went. */
  lemma {:induction false} RemoveAllDeletes(s: string, c: char)
    ensures c !in RemoveAll(s, c)
    ensures |RemoveAll(s, c)| == |s| - Count(s, c)
  {
    if s != [] {
      RemoveAllDeletes(s[1..], c);
    }
  }

  /** Exactly the occurrences of `c` go: every other character keeps its multiplicity. */
  lemma {:induction false} RemoveAllMultiset(s: string, c: char)
    ensures multiset(RemoveAll(s, c)) == multiset(s)[c := 0]
  {
    if s != [] {
      var head: string := if s[0] == c then [] else [s[0]];
      RemoveAllMultiset(s[1..], c);
      assert s == [s[0]] + s[1..];
      assert RemoveAll(s, c) == head + RemoveAll(s[1..], c);
      assert multiset(s) == multiset([s[0]]) + multiset(s[1..]);
      assert multiset(RemoveAll(s, c)) == multiset(head) + multiset(RemoveAll(s[1..], c));
    }
  }

  lemma {:induction false} RemoveAllConcat(a: string, b: string, c: char)
    ensures RemoveAll(a + b, c) == RemoveAll(a, c) + RemoveAll(b, c)
  {
    if a == [] {
      assert a + b == b;
    } else {
      assert (a + b)[1..] == a[1..] + b;
      RemoveAllConcat(a[1..], b, c);
    }
  }

  lemma RemoveAllCons(x: char, a: string, c: char)
    ensures RemoveAll([x] + a, c) == (if x == c then [] else [x]) + RemoveAll(a, c)
  {
    assert ([x] + a)[1..] == a;
  }

  /** Deleting a character that does not occur changes nothing. */
  lemma {:induction false} RemoveAllAbsent(s: string, c: char)
    requires c !in s
    ensures RemoveAll(s, c) == s
  {
    if s != [] {
      assert c !in s[1..] by { assert forall x :: x in s[1..] ==> x in s; }
      RemoveAllAbsent(s[1..], c);
    }
  }

  /** `s.replace(/\D/g, '')` (equally `/[^0-9]/g`): only the decimal digits remain, in order. */
  function KeepDigits(s: string): string
  {
    if s == [] then []
    else KeepChar(s[0]) + KeepDigits(s[1..])
  }

  /** What `KeepDigits` keeps of one character. */
  function KeepChar(c: char): (r: string)
    ensures r == [] || r == [c]
  {
    if IsDigit(c) then [c] else []
  }

  /** Only digits are left, and nothing is added. */
  lemma {:induction false} KeepDigitsOnlyDigits(s: string)
    ensures AllDigits(KeepDigits(s))
    ensures |KeepDigits(s)| <= |s|
  {
    if s != [] {
      KeepDigitsOnlyDigits(s[1..]);
    }
  }

  /** Every digit keeps its multiplicity; nothing else survives. */
  lemma {:induction false} KeepDigitsMultiset(s: string, x: char)
    ensures multiset(KeepDigits(s))[x] == if IsDigit(x) then multiset(s)[x] else 0
  {
    if s != [] {
      KeepDigitsMultiset(s[1..], x);
      assert s == [s[0]] + s[1..];
    }
  }

  lemma {:induction false} KeepDigitsConcat(a: string, b: string)
    ensures KeepDigits(a + b) == KeepDigits(a) + KeepDigits(b)
  {
    if a == [] {
      assert a + b == b;
    } else {
      KeepDigitsConcat(a[1..], b);
      KeepDigitsStep(a, b);
    }
  }

  /** The first character of `a + b` is kept or dropped as the first of `a` is. */
  lemma KeepDigitsStep(a: string, b: string)
    requires a != []
    ensures KeepDigits(a + b) == KeepChar(a[0]) + KeepDigits(a[1..] + b)
    ensures KeepDigits(a) == KeepChar(a[0]) + KeepDigits(a[1..])
  {
    assert (a + b)[0] == a[0];
    assert (a + b)[1..] == a[1..] + b;
  }

  /** A non-digit between two strings disappears. */
  lemma KeepDigitsDropsNonDigit(a: string, c: char, b: string)
    requires !IsDigit(c)
    ensures KeepDigits(a + [c] + b) == KeepDigits(a) + KeepDigits(b)
  {
    var ac := a + [c];
    KeepDigitsConcat(a, [c]);
    KeepDigitsConcat(ac, b);
    KeepDigitsStep([c], []);
    assert [c][1..] + [] == [];
    assert KeepDigits(a) + [] == KeepDigits(a);
  }

  lemma {:induction false} KeepDigitsOfDigits(s: string)
    requires AllDigits(s)
    ensures KeepDigits(s) == s
  {
    if s != [] {
      KeepDigitsOfDigits(s[1..]);
    }
  }

  /** `t` occurs in `s` starting at index `i`. */
  predicate OccursAt(s: string, t: string, i: int) {
    0 <= i && i + |t| <= |s| && s[i..i + |t|] == t
  }

  /** `s.includes(t)`. */
  function Contains(s: string, t: string): bool
    decreases |s|
  {
    if t <= s then true
    else if s == [] then false
    else Contains(s[1..], t)
  }

  /** `Contains` decides whether `t` occurs somewhere in `s`. */
  lemma {:induction false} ContainsIffOccurs(s: string, t: string)
    ensures Contains(s, t) <==> exists i :: OccursAt(s, t, i)
    decreases |s|
  {
    if t <= s {
      assert OccursAt(s, t, 0);
    } else if s == [] {
      assert forall i :: !OccursAt(s, t, i);
    } else {
      ContainsIffOccurs(s[1..], t);
      assert !OccursAt(s, t, 0);
      forall i | OccursAt(s[1..], t, i) ensures OccursAt(s, t, i + 1) {
        assert s[1..][i..i + |t|] == s[i + 1..i + 1 + |t|];
      }
      forall i | OccursAt(s, t, i) ensures OccursAt(s[1..], t, i - 1) {
        assert s[1..][i - 1..i - 1 + |t|] == s[i..i + |t|];
      }
    }
  }

  /** The empty string is part of every string. */
  lemma ContainsEmpty(s: string)
    ensures Contains(s, "")
  {
  }

  /** `s.split(c)` for a one-character separator `c`. */
  function Split(s: string, c: char): (r: seq<string>)
    ensures |r| == Count(s, c) + 1
    ensures forall k :: 0 <= k < |r| ==> c !in r[k]
  {
    if s == [] then [""]
    else
      var rest := Split(s[1..], c);
      if s[0] == c then [""] + rest
      else [[s[0]] + rest[0]] + rest[1..]
  }

  /** `parts.join(c)`: the inverse of `Split`. */
  function Join(parts: seq<string>, c: char): string
  {
    if parts == [] then ""
    else if |parts| == 1 then parts[0]
    else parts[0] + [c] + Join(parts[1..], c)
  }

  /** Splitting loses nothing: joining the pieces with the separator gives the input back. */
  lemma {:induction false} SplitJoin(s: string, c: char)
    ensures Join(Split(s, c), c) == s
  {
    if s != [] {
      var rest := Split(s[1..], c);
      SplitJoin(s[1..], c);
      assert s == [s[0]] + s[1..];
      if s[0] == c {
        assert ([""] + rest)[1..] == rest;
      } else {
        JoinPrepend([s[0]], rest, c);
      }
    }
  }

  /** Gluing `x` onto the first piece glues it onto the joined string. */
  lemma JoinPrepend(x: string, parts: seq<string>, c: char)
    requires parts != []
    ensures Join([x + parts[0]] + parts[1..], c) == x + Join(parts, c)
  {
    var q := [x + parts[0]] + parts[1..];
    if |parts| > 1 {
      assert q[1..] == parts[1..];
      assert (x + parts[0]) + [c] + Join(parts[1..], c) == x + (parts[0] + [c] + Join(parts[1..], c));
    }
  }

  /** The first piece is a prefix of the joined string. */
  lemma JoinHead(parts: seq<string>, c: char)
    requires parts != []
    ensures parts[0] <= Join(parts, c)
  {
  }

  /**
   * The first piece of a split is the text before the first separator; when
   * the separator occurs, it stands right after that piece and the second
   * piece follows it.
   */
  lemma SplitHead(s: string, c: char)
    ensures Split(s, c)[0] <= s
    ensures |Split(s, c)| == 1 ==> Split(s, c)[0] == s
    ensures |Split(s, c)| > 1 ==>
      |Split(s, c)[0]| < |s| && s[|Split(s, c)[0]|] == c &&
      Split(s, c)[1] <= s[|Split(s, c)[0]| + 1..]
  {
    var r := Split(s, c);
    SplitJoin(s, c);
    JoinHead(r, c);
    if |r| > 1 {
      JoinHead(r[1..], c);
      assert s == r[0] + [c] + Join(r[1..], c);
      assert s[|r[0]| + 1..] == Join(r[1..], c);
    }
  }

  /** The pieces after the first are the split of what follows the first separator. */
  lemma {:induction false} SplitTail(s: string, c: char)
    requires |Split(s, c)| > 1
    ensures |Split(s, c)[0]| < |s|
    ensures Split(s, c)[1..] == Split(s[|Split(s, c)[0]| + 1..], c)
  {
    var rest := Split(s[1..], c);
    if s[0] != c {
      SplitTail(s[1..], c);
      assert s[1..][|rest[0]| + 1..] == s[|rest[0]| + 2..];
    }
  }

  /** The first piece runs up to the first separator or to the end. */
  lemma SplitHeadEnds(s: string, c: char)
    ensures |Split(s, c)[0]| <= |s|
    ensures |Split(s, c)[0]| < |s| ==> s[|Split(s, c)[0]|] == c
    ensures c !in Split(s, c)[0]
  {
    SplitHead(s, c);
  }

  /** The digit character for `d < 10`. */
  function DigitChar(d: nat): (ch: char)
    requires d < 10
    ensures IsDigit(ch)
  {
    ('0' as int + d) as char
  }

  /** `n.toString()` for a non-negative integer. */
  function DecimalString(n: nat): (s: string)
    ensures s != [] && AllDigits(s)
  {
    if n < 10 then [DigitChar(n)] else DecimalString(n / 10) + [DigitChar(n % 10)]
  }

  /** The value of a string of decimal digits (most significant first). */
  function DigitsValue(s: string): nat
    requires AllDigits(s)
  {
    if s == [] then 0
    else DigitsValue(s[..|s| - 1]) * 10 + (s[|s| - 1] as int - '0' as int)
  }

  /** Reading back a printed number gives the number. */
  lemma {:induction false} DecimalRoundTrip(n: nat)
    ensures DigitsValue(DecimalString(n)) == n
  {
    if n >= 10 {
      var d := DecimalString(n / 10);
      DecimalRoundTrip(n / 10);
      assert (d + [DigitChar(n % 10)])[..|d|] == d;
    }
  }

  /** The longest prefix of decimal digits. */
  function DigitPrefix(s: string): (r: string)
    ensures r <= s && AllDigits(r)
    ensures |r| < |s| ==> !IsDigit(s[|r|])
  {
    if s != [] && IsDigit(s[0]) then [s[0]] + DigitPrefix(s[1..]) else []
  }

  /** The white space `parseInt` skips (the ASCII ones, NBSP and BOM). */
  predicate IsSpace(c: char) {
    c == ' ' || c == '\t' || c == '\n' || c == '\r' || c == '\U{000B}' || c == '\U{000C}'
    || c == '\U{00A0}' || c == '\U{FEFF}'
  }

  function TrimStart(s: string): (r: string)
    ensures |r| <= |s| && r == s[|s| - |r|..]
    ensures r != [] ==> !IsSpace(r[0])
  {
    if s != [] && IsSpace(s[0]) then TrimStart(s[1..]) else s
  }

  /**
   * `parseInt(s, 10)`: skip leading white space, read an optional sign and
   * the longest run of digits after it; `None` stands for `NaN`.
   */
  function ParseInt(s: string): Option<int>
  {
    var t := TrimStart(s);
    var negative := t != [] && t[0] == '-';
    var u := if t != [] && (t[0] == '-' || t[0] == '+') then t[1..] else t;
    var d := DigitPrefix(u);
    if d == [] then None
    else Some(if negative then -(DigitsValue(d) as int) else DigitsValue(d))
  }

  lemma {:induction false} DigitPrefixOfDigits(s: string)
    requires AllDigits(s)
    ensures DigitPrefix(s) == s
  {
    if s != [] {
      DigitPrefixOfDigits(s[1..]);
    }
  }

  /** `parseInt` of a non-empty string of digits is the number they spell. */
  lemma ParseIntOfDigits(s: string)
    requires AllDigits(s) && s != []
    ensures ParseInt(s) == Some(DigitsValue(s))
  {
    assert TrimStart(s) == s;
    DigitPrefixOfDigits(s);
  }

  /** The digit prefix ends at the first character that is not a digit. */
  lemma {:induction false} DigitPrefixStops(a: string, rest: string)
    requires AllDigits(a) && rest != [] && !IsDigit(rest[0])
    ensures DigitPrefix(a + rest) == a
  {
    if a == [] {
      assert a + rest == rest;
    } else {
      DigitPrefixStops(a[1..], rest);
      assert (a + rest)[1..] == a[1..] + rest;
      assert [a[0]] + a[1..] == a;
    }
  }

  /**
   * `parseInt` reads a run of digits and ignores whatever follows the first
   * character that is not a digit.
   */
  lemma ParseIntStops(a: string, rest: string)
    requires AllDigits(a) && a != [] && rest != [] && !IsDigit(rest[0])
    ensures ParseInt(a + rest) == Some(DigitsValue(a))
  {
    var t := a + rest;
    assert t[0] == a[0];
    TrimStartAtDigit(t);
    DigitPrefixStops(a, rest);
  }

  /** Nothing is skipped in front of a digit. */
  lemma TrimStartAtDigit(t: string)
    requires t != [] && IsDigit(t[0])
    ensures TrimStart(t) == t
  {
  }

  /** `parseInt` reads back what `toString` printed. */
  lemma ParseIntOfDecimal(n: nat)
    ensures ParseInt(DecimalString(n)) == Some(n)
  {
    ParseIntOfDigits(DecimalString(n));
    DecimalRoundTrip(n);
  }
}
