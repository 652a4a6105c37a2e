/**
 * Helpers shared by every page of the storefront: optional values and
 * results, the falsy rules of JavaScript numbers, Math.round, and the few
 * string operations the pages use (toUpperCase, toLowerCase, includes,
 * trim, split and decimal rendering of timestamps).
 */
module Common {

  datatype Option<+T> = None | Some(value: T)

  datatype Result<+T, +E> = Ok(value: T) | Err(error: E)

  // ---------------------------------------------------------------------
  // Numbers

  /** A nullable number is truthy in JavaScript when it is present and not 0. */
  predicate Truthy(x: Option<real>) {
    x.Some? && x.value != 0.0
  }

  /** JavaScript `x || y` where `x` is a nullable number. */
  function OrElse(x: Option<real>, y: real): real {
    if Truthy(x) then x.value else y
  }

  function Max(a: real, b: real): real {
    if a >= b then a else b
  }

  function Min(a: real, b: real): real {
    if a <= b then a else b
  }

  /** Math.round: the nearest integer, halves rounded towards +infinity. */
  function JsRound(x: real): (n: int)
    ensures x - 0.5 < n as real <= x + 0.5
  {
    (x + 0.5).Floor
  }

  lemma JsRoundOfInteger(n: int)
    ensures JsRound(n as real) == n
  {
  }

  // ---------------------------------------------------------------------
  // Case mapping (ASCII letters only)

  function UpperChar(c: char): char {
    if 'a' <= c <= 'z' then (c as int - 32) as char else c
  }

  function LowerChar(c: char): char {
    if 'A' <= c <= 'Z' then (c as int + 32) as char else c
  }

  /** String.prototype.toUpperCase */
  function ToUpper(s: string): (r: string)
    ensures |r| == |s|
    ensures forall i :: 0 <= i < |s| ==> r[i] == UpperChar(s[i])
    ensures forall i :: 0 <= i < |r| ==> !('a' <= r[i] <= 'z')
  {
    if s == [] then [] else [UpperChar(s[0])] + ToUpper(s[1..])
  }

  /** String.prototype.toLowerCase */
  function ToLower(s: string): (r: string)
    ensures |r| == |s|
    ensures forall i :: 0 <= i < |s| ==> r[i] == LowerChar(s[i])
    ensures forall i :: 0 <= i < |r| ==> !('A' <= r[i] <= 'Z')
  {
    if s == [] then [] else [LowerChar(s[0])] + ToLower(s[1..])
  }

  lemma ToUpperIdempotent(s: string)
    ensures ToUpper(ToUpper(s)) == ToUpper(s)
  {
    var u := ToUpper(s);
    assert forall i :: 0 <= i < |u| ==> UpperChar(u[i]) == u[i];
  }

  lemma ToLowerConcat(a: string, b: string)
    ensures ToLower(a + b) == ToLower(a) + ToLower(b)
  {
    var l := ToLower(a + b);
    assert forall i :: 0 <= i < |l| ==> l[i] == (ToLower(a) + ToLower(b))[i];
  }

  // ---------------------------------------------------------------------
  // Substring search

  predicate StartsWith(s: string, prefix: string) {
    |prefix| <= |s| && s[..|prefix|] == prefix
  }

  /** String.prototype.includes */
  predicate Contains(hay: string, needle: string)
    decreases |hay|
  {
    StartsWith(hay, needle) || (|hay| > 0 && Contains(hay[1..], needle))
  }

  lemma {:induction false} ContainsEmpty(hay: string)
    ensures Contains(hay, "")
  {
    assert StartsWith(hay, "");
  }

  /** Every infix is found: `includes` holds of `a + needle + b`. */
  lemma {:induction false} ContainsInfix(a: string, needle: string, b: string)
    ensures Contains(a + needle + b, needle)
    decreases |a|
  {
    var hay := a + needle + b;
    if a == [] {
      assert hay[..|needle|] == needle;
    } else {
      assert hay[1..] == a[1..] + needle + b;
      ContainsInfix(a[1..], needle, b);
    }
  }

  /** A match survives text appended after it. */
  lemma {:induction false} ContainsAppend(hay: string, tail: string, needle: string)
    requires Contains(hay, needle)
    ensures Contains(hay + tail, needle)
    decreases |hay|
  {
    if StartsWith(hay, needle) {
      assert (hay + tail)[..|needle|] == hay[..|needle|];
    } else {
      assert (hay + tail)[1..] == hay[1..] + tail;
      ContainsAppend(hay[1..], tail, needle);
    }
  }

  /** A match survives text put in front of it. */
  lemma {:induction false} ContainsPrepend(front: string, hay: string, needle: string)
    requires Contains(hay, needle)
    ensures Contains(front + hay, needle)
    decreases |front|
  {
    if front == [] {
      assert front + hay == hay;
    } else {
      assert (front + hay)[1..] == front[1..] + hay;
      ContainsPrepend(front[1..], hay, needle);
    }
  }

  /** A match lies inside the haystack, so the needle is never longer. */
  lemma {:induction false} ContainsLength(hay: string, needle: string)
    requires Contains(hay, needle)
    ensures |needle| <= |hay|
    decreases |hay|
  {
    if !StartsWith(hay, needle) {
      ContainsLength(hay[1..], needle);
    }
  }

  // ---------------------------------------------------------------------
  // Whitespace and trim

  /** The characters String.prototype.trim removes (ASCII ones, NBSP and BOM). */
  predicate IsSpace(c: char) {
    c == ' ' || c == '\t' || c == '\n' || c == '\r' || c == '\U{000B}' || c == '\U{000C}'
    || c == '\U{00A0}' || c == '\U{FEFF}'
  }

  predicate AllSpace(s: string) {
    forall i :: 0 <= i < |s| ==> IsSpace(s[i])
  }

  lemma AllSpaceConcat(a: string, b: string)
    requires AllSpace(a) && AllSpace(b)
    ensures AllSpace(a + b)
  {
    forall i | 0 <= i < |a + b|
      ensures IsSpace((a + b)[i])
    {
      if i >= |a| {
        assert (a + b)[i] == b[i - |a|];
      }
    }
  }

  /** Drops the leading whitespace: what is left is a suffix of `s` that does not start with a space. */
  function TrimStart(s: string): (r: string)
    ensures |r| <= |s|
    ensures r == [] || !IsSpace(r[0])
  {
    if |s| > 0 && IsSpace(s[0]) then TrimStart(s[1..]) else s
  }

  /** Drops the trailing whitespace: what is left is a prefix of `s` that does not end with a space. */
  function TrimEnd(s: string): (r: string)
    ensures |r| <= |s|
    ensures r == [] || !IsSpace(r[|r| - 1])
  {
    if |s| > 0 && IsSpace(s[|s| - 1]) then TrimEnd(s[..|s| - 1]) else s
  }

  /** What TrimStart keeps is a suffix of its argument. */
  lemma {:induction false} TrimStartIsSuffix(s: string)
    ensures TrimStart(s) == s[|s| - |TrimStart(s)|..]
    decreases |s|
  {
    if |s| > 0 && IsSpace(s[0]) {
      var t := s[1..];
      TrimStartIsSuffix(t);
      assert s[|s| - |TrimStart(t)|..] == t[|t| - |TrimStart(t)|..];
    }
  }

  /** What TrimEnd keeps is a prefix of its argument. */
  lemma {:induction false} TrimEndIsPrefix(s: string)
    ensures TrimEnd(s) == s[..|TrimEnd(s)|]
    decreases |s|
  {
    if |s| > 0 && IsSpace(s[|s| - 1]) {
      var front := s[..|s| - 1];
      TrimEndIsPrefix(front);
      assert s[..|TrimEnd(front)|] == front[..|TrimEnd(front)|];
    }
  }

  /** Everything TrimStart drops is whitespace. */
  lemma {:induction false} TrimStartDropsSpace(s: string)
    ensures AllSpace(s[..|s| - |TrimStart(s)|])
    decreases |s|
  {
    if |s| > 0 && IsSpace(s[0]) {
      var t := s[1..];
      TrimStartDropsSpace(t);
      var k := |t| - |TrimStart(t)|;
      assert s[..k + 1] == [s[0]] + t[..k];
      AllSpaceConcat([s[0]], t[..k]);
    }
  }

  /** Everything TrimEnd drops is whitespace. */
  lemma {:induction false} TrimEndDropsSpace(s: string)
    ensures AllSpace(s[|TrimEnd(s)|..])
    decreases |s|
  {
    if |s| > 0 && IsSpace(s[|s| - 1]) {
      var front := s[..|s| - 1];
      TrimEndDropsSpace(front);
      var n := |TrimEnd(front)|;
      assert s[n..] == front[n..] + [s[|s| - 1]];
      AllSpaceConcat(front[n..], [s[|s| - 1]]);
    }
  }

  /** String.prototype.trim: the longest infix without surrounding whitespace. */
  function Trim(s: string): (r: string)
    ensures |r| <= |s|
    ensures r == [] || (!IsSpace(r[0]) && !IsSpace(r[|r| - 1]))
  {
    var e := TrimEnd(s);
    TrimStartIsSuffix(e);
    TrimStart(e)
  }

  /** What trim keeps is an infix of `s` with only whitespace around it. */
  lemma TrimIsInfix(s: string)
    ensures var r := Trim(s);
      exists k :: 0 <= k <= |s| - |r| && s[k..k + |r|] == r && AllSpace(s[..k]) && AllSpace(s[k + |r|..])
  {
    var e := TrimEnd(s);
    var r := TrimStart(e);
    var k := |e| - |r|;
    TrimEndIsPrefix(s);
    TrimStartIsSuffix(e);
    TrimEndDropsSpace(s);
    TrimStartDropsSpace(e);
    assert s[k..k + |r|] == r;
    assert s[..k] == e[..k];
    assert s[k + |r|..] == s[|e|..];
  }

  /** A string of whitespace only is dropped entirely by TrimEnd. */
  lemma {:induction false} TrimEndAllSpace(s: string)
    requires AllSpace(s)
    ensures TrimEnd(s) == ""
    decreases |s|
  {
    if s != [] {
      assert IsSpace(s[|s| - 1]);
      TrimEndAllSpace(s[..|s| - 1]);
    }
  }

  /** A string of whitespace only trims to the empty string. */
  lemma TrimAllSpace(s: string)
    requires AllSpace(s)
    ensures Trim(s) == ""
  {
    TrimEndAllSpace(s);
  }

  /** A trailing whitespace character (a `\r` left by a CRLF line end, say) is trimmed away. */
  lemma TrimDropsTrailingSpace(s: string, c: char)
    requires IsSpace(c)
    ensures Trim(s + [c]) == Trim(s)
  {
    assert (s + [c])[..|s|] == s;
  }

  /** A string that neither starts nor ends with whitespace is its own trim. */
  lemma TrimUnpadded(s: string)
    requires s != [] && !IsSpace(s[0]) && !IsSpace(s[|s| - 1])
    ensures Trim(s) == s
  {
    assert TrimEnd(s) == s;
    assert TrimStart(s) == s;
  }

  /** Trimming is idempotent. */
  lemma TrimIdempotent(s: string)
    ensures Trim(Trim(s)) == Trim(s)
  {
    var r := Trim(s);
    if r != [] {
      assert TrimEnd(r) == r;
      assert TrimStart(r) == r;
    }
  }

  // ---------------------------------------------------------------------
  // Split

  function IndexOf(s: string, c: char): (i: nat)
    requires c in s
    ensures i < |s| && s[i] == c && c !in s[..i]
  {
    if s[0] == c then 0 else 1 + IndexOf(s[1..], c)
  }

  /** Glues pieces back together with the separator between them. */
  function Join(pieces: seq<string>, sep: char): string
    requires |pieces| >= 1
  {
    if |pieces| == 1 then pieces[0] else pieces[0] + [sep] + Join(pieces[1..], sep)
  }

  /** String.prototype.split with a one-character separator. */
  function Split(s: string, sep: char): (pieces: seq<string>)
    ensures |pieces| >= 1
    ensures |pieces| == 1 <==> sep !in s
    ensures forall i :: 0 <= i < |pieces| ==> sep !in pieces[i]
    ensures Join(pieces, sep) == s
    decreases |s|
  {
    if sep !in s then [s]
    else
      var i := IndexOf(s, sep);
      var rest := Split(s[i + 1..], sep);
      var pieces := [s[..i]] + rest;
      assert pieces[1..] == rest;
      assert s == s[..i] + [sep] + s[i + 1..];
      pieces
  }

  /** The last piece is what follows the last separator. */
  lemma {:induction false} JoinLast(pieces: seq<string>, sep: char)
    requires |pieces| >= 2
    ensures Join(pieces, sep) == Join(pieces[..|pieces| - 1], sep) + [sep] + pieces[|pieces| - 1]
    decreases |pieces|
  {
    var n := |pieces|;
    if n > 2 {
      JoinLast(pieces[1..], sep);
      assert pieces[1..][..n - 2] == pieces[..n - 1][1..];
    }
  }

  /** `s.split(sep).pop()`: the text after the last separator, or all of `s` when there is none. */
  function LastPiece(s: string, sep: char): (last: string)
    ensures sep !in last
    ensures sep !in s ==> last == s
    ensures sep in s ==> |last| < |s| && s[|s| - |last| - 1] == sep && s[|s| - |last|..] == last
  {
    var pieces := Split(s, sep);
    var last := pieces[|pieces| - 1];
    assert sep !in last;
    if sep in s then
      assert |pieces| >= 2;
      JoinLast(pieces, sep);
      var front := Join(pieces[..|pieces| - 1], sep);
      assert s == front + [sep] + last;
      assert s[|s| - |last|..] == last;
      last
    else
      last
  }

  /** Splitting at the first separator: the text before it is the first piece. */
  lemma SplitAtFirst(a: string, sep: char, b: string)
    requires sep !in a
    ensures Split(a + [sep] + b, sep) == [a] + Split(b, sep)
  {
    var s := a + [sep] + b;
    assert s[|a|] == sep;
    assert s[..|a|] == a;
    var i := IndexOf(s, sep);
    assert s[..i] == a;
    assert s[i + 1..] == b;
  }

  // ---------------------------------------------------------------------
  // Decimal rendering (template literals of non-negative integers)

  predicate IsDigit(c: char) {
    '0' <= c <= '9'
  }

  function DigitChar(d: nat): (c: char)
    requires d < 10
    ensures IsDigit(c)
  {
    ('0' as int + d) as char
  }

  function DigitValue(c: char): nat
    requires IsDigit(c)
  {
    c as int - '0' as int
  }

  /** The value a string of decimal digits denotes. */
  function DecimalValue(s: string): nat
    requires forall i :: 0 <= i < |s| ==> IsDigit(s[i])
  {
    if s == [] then 0 else 10 * DecimalValue(s[..|s| - 1]) + DigitValue(s[|s| - 1])
  }

  /** The decimal text of `n`, as `${n}` writes it. */
  function NatToDecimal(n: nat): (s: string)
    ensures |s| >= 1
    ensures forall i :: 0 <= i < |s| ==> IsDigit(s[i])
  {
    if n < 10 then [DigitChar(n)] else NatToDecimal(n / 10) + [DigitChar(n % 10)]
  }

  /** The decimal text reads back as the number it was made from. */
  lemma {:induction false} NatToDecimalRoundTrip(n: nat)
    ensures DecimalValue(NatToDecimal(n)) == n
  {
    var s := NatToDecimal(n);
    if n >= 10 {
      NatToDecimalRoundTrip(n / 10);
      assert s[..|s| - 1] == NatToDecimal(n / 10);
    }
  }
}
