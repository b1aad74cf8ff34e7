/** The Python `str` operations the scrapers build and take apart URLs with:
    `find`, `split`, `join`, `replace(..., "")`, `strip()` and `str(int)`. */
module Text {
  import opened Values

  /** `sep` occurs in `s` starting at index `k`. */
  predicate OccursAt(s: string, sep: string, k: nat)
  {
    k + |sep| <= |s| && s[k..k + |sep|] == sep
  }

  /** Index of the first occurrence of `sep` at or after `from`. */
  function FindFrom(s: string, sep: string, from: nat): (r: Option<nat>)
    requires |sep| > 0
    ensures r.Some? ==> from <= r.value && OccursAt(s, sep, r.value)
    ensures r.Some? ==> forall j: nat :: from <= j < r.value ==> !OccursAt(s, sep, j)
    ensures r.None? ==> forall j: nat :: from <= j ==> !OccursAt(s, sep, j)
    decreases |s| - from
  {
    if from + |sep| > |s| then None
    else if OccursAt(s, sep, from) then Some(from)
    else FindFrom(s, sep, from + 1)
  }

  /** Index of the first occurrence of `sep` in `s` (Python's `s.find(sep)`, with
      `None` for -1). */
  function Find(s: string, sep: string): (r: Option<nat>)
    requires |sep| > 0
    ensures r.Some? ==> OccursAt(s, sep, r.value)
    ensures r.Some? ==> forall j: nat :: j < r.value ==> !OccursAt(s, sep, j)
    ensures r.None? ==> forall j: nat :: !OccursAt(s, sep, j)
  {
    FindFrom(s, sep, 0)
  }

  predicate Contains(s: string, sep: string)
    requires |sep| > 0
  {
    Find(s, sep).Some?
  }

  /** Python `s.split(sep)` for a non-empty separator. */
  function Split(s: string, sep: string): (r: seq<string>)
    requires |sep| > 0
    ensures |r| >= 1
    decreases |s|
  {
    match Find(s, sep)
    case None => [s]
    case Some(k) => [s[..k]] + Split(s[k + |sep|..], sep)
  }

  /** Python `sep.join(parts)`. */
  function Join(parts: seq<string>, sep: string): string
  {
    if |parts| == 0 then ""
    else if |parts| == 1 then parts[0]
    else parts[0] + sep + Join(parts[1..], sep)
  }

  /** Python `"".join(parts)`. */
  function Concat(parts: seq<string>): string
  {
    Join(parts, "")
  }

  /** Python `s.replace(pattern, "")`: every non-overlapping occurrence, scanned from
      the left, is removed. */
  function Remove(s: string, pattern: string): string
    requires |pattern| > 0
  {
    Concat(Split(s, pattern))
  }

  /** `split` finds a second part exactly when the separator occurs. */
  lemma SplitHasSecondPart(s: string, sep: string)
    requires |sep| > 0
    ensures |Split(s, sep)| >= 2 <==> Contains(s, sep)
  {
  }

  /** Joining the parts of a split with the same separator gives back the string. */
  lemma {:induction false} SplitJoin(s: string, sep: string)
    requires |sep| > 0
    ensures Join(Split(s, sep), sep) == s
    decreases |s|
  {
    match Find(s, sep)
    case None =>
    case Some(k) =>
      var rest := s[k + |sep|..];
      SplitJoin(rest, sep);
      SplitAt(s, sep, k);
      JoinCons(s[..k], Split(rest, sep), sep);
  }

  /** At the first occurrence `k`, the string is the text before it, the separator
      and the rest, and the split is the text before it and the split of the rest. */
  lemma SplitAt(s: string, sep: string, k: nat)
    requires |sep| > 0 && Find(s, sep) == Some(k)
    ensures s == s[..k] + sep + s[k + |sep|..]
    ensures Split(s, sep) == [s[..k]] + Split(s[k + |sep|..], sep)
  {
    assert s == s[..k] + s[k..k + |sep|] + s[k + |sep|..];
  }

  /** Joining a part in front of a non-empty list of parts. */
  lemma JoinCons(a: string, parts: seq<string>, sep: string)
    requires |parts| >= 1
    ensures Join([a] + parts, sep) == a + sep + Join(parts, sep)
  {
    assert ([a] + parts)[1..] == parts;
  }

  /** No part of a split contains the separator. */
  lemma {:induction false} SplitPartsFree(s: string, sep: string)
    requires |sep| > 0
    ensures forall i :: 0 <= i < |Split(s, sep)| ==> !Contains(Split(s, sep)[i], sep)
    decreases |s|
  {
    match Find(s, sep)
    case None =>
    case Some(k) =>
      SplitPartsFree(s[k + |sep|..], sep);
      PrefixBeforeFirstIsFree(s, sep, k);
  }

  /** The text before the first occurrence of `sep` does not contain it. */
  lemma PrefixBeforeFirstIsFree(s: string, sep: string, k: nat)
    requires |sep| > 0 && Find(s, sep) == Some(k)
    ensures !Contains(s[..k], sep)
  {
    if Contains(s[..k], sep) {
      var j := Find(s[..k], sep).value;
      assert s[..k][j..j + |sep|] == s[j..j + |sep|];
      assert OccursAt(s, sep, j);
    }
  }

  /** When `sep` occurs nowhere before index `n`, the first part of the split keeps
      all of `s[..n]`. */
  lemma SplitFirstKeeps(s: string, sep: string, n: nat)
    requires |sep| > 0 && n <= |s| && forall j: nat :: j < n ==> !OccursAt(s, sep, j)
    ensures |Split(s, sep)[0]| >= n && Split(s, sep)[0][..n] == s[..n]
  {
    match Find(s, sep)
    case None =>
    case Some(k) =>
      assert Split(s, sep)[0] == s[..k];
  }

  /** The first character of `sep` does not recur in it, so no occurrence of `sep`
      can overlap the start of another. */
  predicate LeadsOnce(sep: string)
  {
    |sep| > 0 && forall k :: 0 < k < |sep| ==> sep[k] != sep[0]
  }

  /** A separator whose first character does not recur, placed after text that does
      not contain it, is first found right after that text. */
  lemma FindAfterFree(prefix: string, sep: string, tail: string)
    requires LeadsOnce(sep) && !Contains(prefix, sep)
    ensures Find(prefix + sep + tail, sep) == Some(|prefix|)
  {
    var s := prefix + sep + tail;
    assert OccursAt(s, sep, |prefix|) by { assert s[|prefix|..|prefix| + |sep|] == sep; }
    forall j: nat | j < |prefix| ensures !OccursAt(s, sep, j) {
      if j + |sep| <= |prefix| {
        assert prefix[j..j + |sep|] == s[j..j + |sep|];
        assert !OccursAt(prefix, sep, j);
      } else {
        var k := |prefix| - j;
        assert s[j + k] == sep[0] != sep[k];
      }
    }
  }

  /** Splitting on such a separator placed after text free of it: that text is the
      first part and the rest is split on. */
  lemma SplitAfterFree(prefix: string, sep: string, tail: string)
    requires LeadsOnce(sep) && !Contains(prefix, sep)
    ensures Split(prefix + sep + tail, sep) == [prefix] + Split(tail, sep)
  {
    var s := prefix + sep + tail;
    FindAfterFree(prefix, sep, tail);
    assert s[..|prefix|] == prefix;
    assert s[|prefix| + |sep|..] == tail;
  }

  /** A one-character separator that does not occur in `a` is first found right
      after `a`. */
  lemma FindCharAfter(a: string, c: char, b: string)
    requires c !in a
    ensures Find(a + [c] + b, [c]) == Some(|a|)
  {
    var s := a + [c] + b;
    assert OccursAt(s, [c], |a|) by { assert s[|a|..|a| + 1] == [c]; }
    forall j: nat | j < |a| ensures !OccursAt(s, [c], j) {
      assert s[j] == a[j];
    }
  }

  lemma FindCharAbsent(a: string, c: char)
    requires c !in a
    ensures Find(a, [c]) == None
  {
    forall j: nat | j < |a| ensures !OccursAt(a, [c], j) {
      assert a[j] != c;
    }
  }

  /** Splitting on a character absent from `a`: `a` is the first part. */
  lemma SplitCharAfter(a: string, c: char, b: string)
    requires c !in a
    ensures Split(a + [c] + b, [c]) == [a] + Split(b, [c])
  {
    var s := a + [c] + b;
    FindCharAfter(a, c, b);
    assert s[..|a|] == a;
    assert s[|a| + 1..] == b;
  }

  lemma SplitCharAbsent(a: string, c: char)
    requires c !in a
    ensures Split(a, [c]) == [a]
  {
    FindCharAbsent(a, c);
  }

  /** Splitting what was joined with a one-character separator that none of the
      parts contains gives back the parts. */
  lemma {:induction false} JoinSplitChar(parts: seq<string>, c: char)
    requires |parts| >= 1 && forall i :: 0 <= i < |parts| ==> c !in parts[i]
    ensures Split(Join(parts, [c]), [c]) == parts
    decreases |parts|
  {
    if |parts| == 1 {
      SplitCharAbsent(parts[0], c);
    } else {
      JoinSplitChar(parts[1..], c);
      SplitCharAfter(parts[0], c, Join(parts[1..], [c]));
      assert parts == [parts[0]] + parts[1..];
    }
  }

  /** No query delimiter: what `urlencode` leaves in an escaped name or value. */
  predicate Plain(s: string)
  {
    '&' !in s && '=' !in s
  }

  /** The `name=value` fields of a query. */
  function Fields(params: seq<(string, string)>): (r: seq<string>)
    ensures |r| == |params|
  {
    if params == [] then [] else [params[0].0 + "=" + params[0].1] + Fields(params[1..])
  }

  /** Python `urlencode` of `(name, value)` pairs once each has been escaped: the
      `name=value` fields joined by `&`, in the given order. */
  function Urlencode(params: seq<(string, string)>): string
  {
    Join(Fields(params), "&")
  }

  /** Reads `name=value` fields back into pairs. */
  function ParsePairs(fields: seq<string>): Option<seq<(string, string)>>
  {
    if fields == [] then Some([])
    else
      var kv := Split(fields[0], "=");
      if |kv| != 2 then None
      else match ParsePairs(fields[1..])
        case None => None
        case Some(rest) => Some([(kv[0], kv[1])] + rest)
  }

  /** Reads a query string back into its `(name, value)` pairs. */
  function ParseQuery(query: string): Option<seq<(string, string)>>
  {
    ParsePairs(Split(query, "&"))
  }

  lemma {:induction false} ParsePairsRoundTrip(params: seq<(string, string)>)
    requires forall i :: 0 <= i < |params| ==> Plain(params[i].0) && Plain(params[i].1)
    ensures ParsePairs(Fields(params)) == Some(params)
    decreases |params|
  {
    if params != [] {
      var name, value := params[0].0, params[0].1;
      SplitCharAfter(name, '=', value);
      SplitCharAbsent(value, '=');
      assert Fields(params)[1..] == Fields(params[1..]);
      ParsePairsRoundTrip(params[1..]);
      assert params == [(name, value)] + params[1..];
    }
  }

  /** The pairs of a non-empty query whose names and values are escaped can be read
      back out of `urlencode`'s output, in order. */
  lemma UrlencodeRoundTrip(params: seq<(string, string)>)
    requires |params| >= 1
    requires forall i :: 0 <= i < |params| ==> Plain(params[i].0) && Plain(params[i].1)
    ensures ParseQuery(Urlencode(params)) == Some(params)
  {
    var fields := Fields(params);
    forall i | 0 <= i < |fields| ensures '&' !in fields[i] {
      FieldsAt(params, i);
    }
    JoinSplitChar(fields, '&');
    ParsePairsRoundTrip(params);
  }

  lemma {:induction false} FieldsAt(params: seq<(string, string)>, i: nat)
    requires i < |params|
    ensures Fields(params)[i] == params[i].0 + "=" + params[i].1
    decreases i
  {
    if i > 0 {
      FieldsAt(params[1..], i - 1);
    }
  }

  /** `replace(pattern, "")` on text with no occurrence leaves it unchanged. */
  lemma RemoveAbsent(s: string, pattern: string)
    requires |pattern| > 0 && !Contains(s, pattern)
    ensures Remove(s, pattern) == s
  {
  }

  /** `replace(pattern, "")` on `pattern + body`, where `body` holds no further
      occurrence, gives exactly `body`. */
  lemma RemoveLeading(pattern: string, body: string)
    requires |pattern| > 0 && !Contains(body, pattern)
    ensures Remove(pattern + body, pattern) == body
  {
    var s := pattern + body;
    assert OccursAt(s, pattern, 0) by { assert s[0..|pattern|] == pattern; }
    assert Find(s, pattern) == Some(0);
    assert s[|pattern|..] == body;
    assert Split(body, pattern) == [body];
    assert Split(s, pattern) == ["", body];
    assert ["", body][1..] == [body];
    assert Join(["", body], "") == "" + "" + Join([body], "");
  }

  /** The characters for which Python's `str.isspace()` holds, which `strip()`
      removes. */
  predicate IsSpace(c: char)
  {
    c == ' ' || ('\t' <= c <= '\r') || ('\U{1C}' <= c <= '\U{1F}') || c == '\U{85}' ||
    c == '\U{A0}' || c == '\U{1680}' || ('\U{2000}' <= c <= '\U{200A}') ||
    c == '\U{2028}' || c == '\U{2029}' || c == '\U{202F}' || c == '\U{205F}' || c == '\U{3000}'
  }

  /** Python `s.lstrip()`. */
  function TrimStart(s: string): (r: string)
    ensures |r| <= |s| && r == s[|s| - |r|..]
    ensures forall i :: 0 <= i < |s| - |r| ==> IsSpace(s[i])
    ensures |r| > 0 ==> !IsSpace(r[0])
    decreases |s|
  {
    if |s| > 0 && IsSpace(s[0]) then TrimStart(s[1..]) else s
  }

  /** Python `s.rstrip()`. */
  function TrimEnd(s: string): (r: string)
    ensures |r| <= |s| && r == s[..|r|]
    ensures forall i :: |r| <= i < |s| ==> IsSpace(s[i])
    ensures |r| > 0 ==> !IsSpace(r[|r| - 1])
    decreases |s|
  {
    if |s| > 0 && IsSpace(s[|s| - 1]) then TrimEnd(s[..|s| - 1]) else s
  }

  /** Only whitespace lies before index `i` and from index `j` on. */
  predicate SpaceOutside(s: string, i: int, j: int)
  {
    0 <= i <= j <= |s| && (forall k :: 0 <= k < i ==> IsSpace(s[k])) && (forall k :: j <= k < |s| ==> IsSpace(s[k]))
  }

  /** `r` is `s` with whitespace removed from both ends and none left at either end
      of `r`: what `strip()` promises, stated without computing it. */
  predicate Trimmed(s: string, r: string)
  {
    (exists i, j :: 0 <= i <= j <= |s| && SpaceOutside(s, i, j) && r == s[i..j]) &&
    (|r| > 0 ==> !IsSpace(r[0]) && !IsSpace(r[|r| - 1]))
  }

  /** Python `s.strip()`: the text between the leading and the trailing whitespace. */
  function Strip(s: string): (r: string)
    ensures Trimmed(s, r)
  {
    StripTrims(s);
    TrimEnd(TrimStart(s))
  }

  /** Trimming the start and then the end cuts `s` at two points with only
      whitespace outside them. */
  lemma StripTrims(s: string)
    ensures Trimmed(s, TrimEnd(TrimStart(s)))
  {
    var t := TrimStart(s);
    var r := TrimEnd(t);
    SuffixPrefixCut(s, t, r);
    assert |r| > 0 ==> r[0] == t[0];
    assert SpaceOutside(s, |s| - |t|, |s| - |t| + |r|);
  }

  /** A prefix `r` of a suffix `t` of `s` is the slice of `s` where they overlap. */
  lemma SuffixPrefixCut(s: string, t: string, r: string)
    requires |t| <= |s| && t == s[|s| - |t|..] && |r| <= |t| && r == t[..|r|]
    requires forall k :: |r| <= k < |t| ==> IsSpace(t[k])
    ensures r == s[|s| - |t|..|s| - |t| + |r|]
    ensures forall k :: |s| - |t| + |r| <= k < |s| ==> IsSpace(s[k])
  {
    var i := |s| - |t|;
    forall k | i + |r| <= k < |s| ensures IsSpace(s[k]) {
      assert s[k] == t[k - i];
    }
  }

  /** Only one string is `s` trimmed, so `Trimmed` pins down what `strip()` returns. */
  lemma TrimmedUnique(s: string, r1: string, r2: string)
    requires Trimmed(s, r1) && Trimmed(s, r2)
    ensures r1 == r2
  {
    var i1, j1 :| SpaceOutside(s, i1, j1) && r1 == s[i1..j1];
    var i2, j2 :| SpaceOutside(s, i2, j2) && r2 == s[i2..j2];
    if |r1| > 0 && |r2| > 0 {
      SameCut(s, i1, j1, i2, j2);
    } else if |r1| > 0 {
      NothingBetween(s, i2, j2, i1);
    } else if |r2| > 0 {
      NothingBetween(s, i1, j1, i2);
    }
  }

  /** Two cuts with whitespace outside and none at their ends are the same cut. */
  lemma SameCut(s: string, i1: int, j1: int, i2: int, j2: int)
    requires SpaceOutside(s, i1, j1) && SpaceOutside(s, i2, j2) && i1 < j1 && i2 < j2
    requires !IsSpace(s[i1]) && !IsSpace(s[j1 - 1]) && !IsSpace(s[i2]) && !IsSpace(s[j2 - 1])
    ensures i1 == i2 && j1 == j2
  {
  }

  /** An empty cut with whitespace outside leaves whitespace only. */
  lemma NothingBetween(s: string, i: int, j: int, k: int)
    requires SpaceOutside(s, i, j) && i == j && 0 <= k < |s|
    ensures IsSpace(s[k])
  {
  }

  /** Stripping twice is stripping once. */
  lemma StripIdempotent(s: string)
    ensures Strip(Strip(s)) == Strip(s)
  {
  }

  /** The character of the decimal digit `d`. */
  function DigitChar(d: nat): (c: char)
    requires d < 10
    ensures '0' <= c <= '9'
  {
    "0123456789"[d]
  }

  function DigitValue(c: char): nat
    requires '0' <= c <= '9'
  {
    c as nat - '0' as nat
  }

  predicate AllDigits(s: string)
  {
    forall i :: 0 <= i < |s| ==> '0' <= s[i] <= '9'
  }

  /** Python `str(n)` for a non-negative integer: decimal, no leading zeros. */
  function NatToDecimal(n: nat): (r: string)
    ensures |r| > 0 && AllDigits(r)
    decreases n
  {
    if n < 10 then [DigitChar(n)] else NatToDecimal(n / 10) + [DigitChar(n % 10)]
  }

  /** Python `str(i)`: a minus sign before the digits of a negative integer. */
  function IntToDecimal(i: int): string
  {
    if i < 0 then "-" + NatToDecimal(-i) else NatToDecimal(i)
  }

  /** The value of a string of decimal digits. */
  function DigitsValue(s: string): nat
    requires AllDigits(s)
  {
    if |s| == 0 then 0 else DigitsValue(s[..|s| - 1]) * 10 + DigitValue(s[|s| - 1])
  }

  /** Python `int(s)` restricted to an optional minus sign and decimal digits. */
  function ParseInt(s: string): Option<int>
  {
    if |s| > 1 && s[0] == '-' && AllDigits(s[1..]) then Some(-(DigitsValue(s[1..]) as int))
    else if |s| > 0 && AllDigits(s) then Some(DigitsValue(s))
    else None
  }

  lemma {:induction false} DecimalDigitsValue(n: nat)
    ensures DigitsValue(NatToDecimal(n)) == n
    decreases n
  {
    if n >= 10 {
      DecimalDigitsValue(n / 10);
      var s := NatToDecimal(n);
      assert s[..|s| - 1] == NatToDecimal(n / 10);
      assert DigitValue(DigitChar(n % 10)) == n % 10 by {
        var d := n % 10;
        assert d == 0 || d == 1 || d == 2 || d == 3 || d == 4 || d == 5 || d == 6 || d == 7 || d == 8 || d == 9;
      }
    } else {
      assert n == 0 || n == 1 || n == 2 || n == 3 || n == 4 || n == 5 || n == 6 || n == 7 || n == 8 || n == 9;
    }
  }

  /** Reading back `str(i)` gives `i`: the decimal form loses nothing. */
  lemma IntDecimalRoundTrip(i: int)
    ensures ParseInt(IntToDecimal(i)) == Some(i)
  {
    if i < 0 {
      NegativeDecimalRoundTrip(i);
    } else {
      NatDecimalRoundTrip(i);
    }
  }

  lemma NegativeDecimalRoundTrip(i: int)
    requires i < 0
    ensures ParseInt(IntToDecimal(i)) == Some(i)
  {
    var n: nat := -i;
    var d := NatToDecimal(n);
    assert IntToDecimal(i) == "-" + d;
    DecimalDigitsValue(n);
    ParseNegative(d);
  }

  lemma ParseNegative(d: string)
    requires |d| > 0 && AllDigits(d)
    ensures ParseInt("-" + d) == Some(-(DigitsValue(d) as int))
  {
    assert ("-" + d)[1..] == d;
  }

  lemma NatDecimalRoundTrip(n: nat)
    ensures ParseInt(IntToDecimal(n)) == Some(n)
  {
    var s := NatToDecimal(n);
    DecimalDigitsValue(n);
    assert s[0] != '-';
    assert ParseInt(s) == Some(DigitsValue(s));
  }

  /** `str(i)` holds only digits and a minus sign, so no URL query delimiter. */
  lemma IntDecimalChars(i: int)
    ensures forall c :: c in IntToDecimal(i) ==> c == '-' || '0' <= c <= '9'
    ensures Plain(IntToDecimal(i))
  {
  }
}
