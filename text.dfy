/**
 * String handling the pages rely on: JavaScript's `trim`, `split` and `join`
 * on one-character separators, `replace(/\D/g, "")`, ASCII lower-casing, and
 * the regular expressions of the public forms written as character-class
 * predicates.
 */
module Text {
  import opened Wrappers

  predicate IsDigit(c: char) { '0' <= c <= '9' }

  predicate IsUpper(c: char) { 'A' <= c <= 'Z' }

  /** JavaScript white space and line terminators: the `\s` class, and what `trim` strips. */
  predicate IsSpace(c: char) {
    || c == '\t' || c == '\n' || c == '\U{000B}' || c == '\U{000C}' || c == '\r' || c == ' '
    || c == '\U{00A0}' || c == '\U{1680}' || ('\U{2000}' <= c <= '\U{200A}')
    || c == '\U{2028}' || c == '\U{2029}' || c == '\U{202F}' || c == '\U{205F}'
    || c == '\U{3000}' || c == '\U{FEFF}'
  }

  predicate AllDigits(s: string) { forall i :: 0 <= i < |s| ==> IsDigit(s[i]) }

  predicate AllSpace(s: string) { forall i :: 0 <= i < |s| ==> IsSpace(s[i]) }

  predicate NoSpace(s: string) { forall i :: 0 <= i < |s| ==> !IsSpace(s[i]) }

  lemma AllSpaceAppend(a: string, b: string)
    requires AllSpace(a) && AllSpace(b)
    ensures AllSpace(a + b)
  {
    assert forall i :: |a| <= i < |a + b| ==> (a + b)[i] == b[i - |a|];
  }

  // ---------------------------------------------------------------- trim

  /** `s.trimStart()`: the suffix of `s` left once its leading white space is gone. */
  function TrimStart(s: string): (r: string)
    ensures |r| <= |s| && r == s[|s| - |r|..]
    ensures AllSpace(s[..|s| - |r|])
    ensures r == "" || !IsSpace(r[0])
  {
    if s != "" && IsSpace(s[0]) then
      var r := TrimStart(s[1..]);
      TrimStartStep(s, r);
      r
    else
      s
  }

  /** Dropping one leading white-space character keeps the properties of `TrimStart`. */
  lemma TrimStartStep(s: string, r: string)
    requires s != "" && IsSpace(s[0])
    requires |r| <= |s| - 1 && r == s[1..][|s| - 1 - |r|..] && AllSpace(s[1..][..|s| - 1 - |r|])
    ensures r == s[|s| - |r|..] && AllSpace(s[..|s| - |r|])
  {
    var k := |s| - |r|;
    assert s[1..][k - 1..] == s[k..];
    assert s[1..][..k - 1] == s[1..k];
    assert s[..k] == [s[0]] + s[1..k];
    AllSpaceAppend([s[0]], s[1..k]);
  }

  /** `s.trimEnd()`: the prefix of `s` left once its trailing white space is gone. */
  function TrimEnd(s: string): (r: string)
    ensures |r| <= |s| && r == s[..|r|]
    ensures AllSpace(s[|r|..])
    ensures r == "" || !IsSpace(r[|r| - 1])
  {
    if s != "" && IsSpace(s[|s| - 1]) then
      var r := TrimEnd(s[..|s| - 1]);
      assert s[..|s| - 1][|r|..] == s[|r|..|s| - 1];
      assert s[|r|..] == s[|r|..|s| - 1] + [s[|s| - 1]];
      AllSpaceAppend(s[|r|..|s| - 1], [s[|s| - 1]]);
      r
    else
      s
  }

  lemma TrimStartEmpty(s: string)
    ensures TrimStart(s) == "" <==> AllSpace(s)
  {
    var t := TrimStart(s);
    assert t == "" ==> s[..|s|] == s;
    assert t != "" ==> t[0] == s[|s| - |t|];
  }

  lemma TrimEndEmpty(s: string)
    ensures TrimEnd(s) == "" <==> AllSpace(s)
  {
    var t := TrimEnd(s);
    assert t == "" ==> s[0..] == s;
    assert t != "" ==> t[|t| - 1] == s[|t| - 1];
  }

  /**
   * `s.trim()`: empty exactly when `s` is all white space, and otherwise
   * neither starting nor ending with white space.
   */
  function Trim(s: string): (r: string)
    ensures |r| <= |s|
    ensures r == "" <==> AllSpace(s)
    ensures r != "" ==> !IsSpace(r[0]) && !IsSpace(r[|r| - 1])
  {
    var t := TrimStart(s);
    TrimStartEmpty(s);
    TrimEndEmpty(t);
    assert AllSpace(t) ==> t == "";
    var r := TrimEnd(t);
    assert r != "" ==> r[0] == t[0];
    r
  }

  /** `!s.trim()`: the form validators' test for a missing field. */
  predicate IsBlank(s: string) { Trim(s) == "" }

  lemma TrimIdempotent(s: string)
    ensures Trim(Trim(s)) == Trim(s)
  {
    var r := Trim(s);
    assert TrimStart(r) == r;
    assert TrimEnd(r) == r;
  }

  /** Trimming only cuts characters off the ends. */
  lemma TrimSubstring(s: string)
    ensures exists a, b :: 0 <= a <= b <= |s| && Trim(s) == s[a..b]
  {
    var st := TrimStart(s);
    var r := TrimEnd(st);
    assert st == s[|s| - |st|..];
    assert r == st[..|r|];
    assert r == s[|s| - |st|..|s| - |st| + |r|];
  }

  lemma TrimNoNewChars(s: string, c: char)
    requires c !in s
    ensures c !in Trim(s)
  {
    TrimSubstring(s);
  }

  // ----------------------------------------------------- digits only

  /** `s.replace(/\D/g, "")`: the digits of `s`, in order. */
  function KeepDigits(s: string): (r: string)
    ensures AllDigits(r)
    ensures |r| <= |s|
  {
    if s == "" then "" else (if IsDigit(s[0]) then [s[0]] else "") + KeepDigits(s[1..])
  }

  /** Removing non-digits works piece by piece. */
  lemma {:induction false} KeepDigitsAppend(a: string, b: string)
    ensures KeepDigits(a + b) == KeepDigits(a) + KeepDigits(b)
  {
    if a == "" {
      assert a + b == b;
    } else {
      assert (a + b)[0] == a[0];
      assert (a + b)[1..] == a[1..] + b;
      KeepDigitsAppend(a[1..], b);
    }
  }

  /** One character: kept exactly when it is a digit. */
  lemma KeepDigitsOneChar(c: char)
    ensures KeepDigits([c]) == if IsDigit(c) then [c] else ""
  {
    assert [c][1..] == "";
  }

  /** A string of digits passes through unchanged. */
  lemma {:induction false} KeepDigitsOfDigits(s: string)
    requires AllDigits(s)
    ensures KeepDigits(s) == s
  {
    if s != "" {
      KeepDigitsOfDigits(s[1..]);
    }
  }

  /** Sanitising an already sanitised value changes nothing. */
  lemma KeepDigitsIdempotent(s: string)
    ensures KeepDigits(KeepDigits(s)) == KeepDigits(s)
  {
    KeepDigitsOfDigits(KeepDigits(s));
  }

  // ------------------------------------------------------ split / join

  /** `s.indexOf(c)` for a character known to occur. */
  function IndexOf(s: string, c: char): (i: nat)
    requires c in s
    ensures i < |s| && s[i] == c && c !in s[..i]
  {
    if s[0] == c then 0 else
      var i := 1 + IndexOf(s[1..], c);
      assert s[..i] == [s[0]] + s[1..][..i - 1];
      i
  }

  /** `s.split(sep)` for a one-character separator: never empty, and no piece holds `sep`. */
  function Split(s: string, sep: char): (parts: seq<string>)
    ensures |parts| >= 1
    ensures |parts| > 1 <==> sep in s
    ensures forall i :: 0 <= i < |parts| ==> sep !in parts[i]
    decreases |s|
  {
    if sep in s then
      var i := IndexOf(s, sep);
      [s[..i]] + Split(s[i + 1..], sep)
    else
      [s]
  }

  /** `parts.join(sep)`. */
  function Join(parts: seq<string>, sep: char): string
  {
    if |parts| == 0 then ""
    else if |parts| == 1 then parts[0]
    else parts[0] + [sep] + Join(parts[1..], sep)
  }

  /** Joining the pieces of a split gives back the original string. */
  lemma {:induction false} JoinSplit(s: string, sep: char)
    ensures Join(Split(s, sep), sep) == s
    decreases |s|
  {
    if sep in s {
      var i := IndexOf(s, sep);
      var rest := Split(s[i + 1..], sep);
      JoinSplit(s[i + 1..], sep);
      assert Split(s, sep) == [s[..i]] + rest;
      assert ([s[..i]] + rest)[1..] == rest;
      assert s == s[..i] + [sep] + s[i + 1..];
    }
  }

  /** The first separator in `a + [sep] + b` is the one between them when `a` has none. */
  lemma IndexOfAfterPiece(a: string, b: string, sep: char)
    requires sep !in a
    ensures sep in a + [sep] + b && IndexOf(a + [sep] + b, sep) == |a|
  {
    var s := a + [sep] + b;
    assert s[|a|] == sep;
    assert s[..|a|] == a;
  }

  /** Splitting joined pieces that hold no separator gives back the pieces. */
  lemma {:induction false} SplitJoin(parts: seq<string>, sep: char)
    requires |parts| >= 1
    requires forall i :: 0 <= i < |parts| ==> sep !in parts[i]
    ensures Split(Join(parts, sep), sep) == parts
  {
    if |parts| > 1 {
      var rest := Join(parts[1..], sep);
      var s := parts[0] + [sep] + rest;
      assert Join(parts, sep) == s;
      IndexOfAfterPiece(parts[0], rest, sep);
      assert s[..|parts[0]|] == parts[0];
      assert s[|parts[0]| + 1..] == rest;
      assert Split(s, sep) == [parts[0]] + Split(rest, sep);
      SplitJoin(parts[1..], sep);
      assert parts == [parts[0]] + parts[1..];
    }
  }

  /** A join of a leading run of pieces is a prefix of the join of all of them. */
  lemma {:induction false} JoinPrefix(parts: seq<string>, k: nat, sep: char)
    requires 0 < k < |parts|
    ensures Join(parts, sep) == Join(parts[..k], sep) + [sep] + Join(parts[k..], sep)
  {
    if k > 1 {
      JoinPrefix(parts[1..], k - 1, sep);
      assert parts[1..][..k - 1] == parts[..k][1..];
      assert parts[1..][k - 1..] == parts[k..];
    }
  }

  /** `s.split(sep)[k]`: the k-th piece, or `None` (JavaScript's `undefined`) past the end. */
  function Piece(s: string, sep: char, k: nat): (r: Option<string>)
    ensures r.Some? <==> k < |Split(s, sep)|
    ensures r.Some? ==> sep !in r.value
  {
    var parts := Split(s, sep);
    if k < |parts| then Some(parts[k]) else None
  }

  /** The second piece of `a + [sep] + b` is `b` when neither holds the separator. */
  lemma SecondPiece(a: string, b: string, sep: char)
    requires sep !in a && sep !in b
    ensures Piece(a + [sep] + b, sep, 1) == Some(b)
  {
    assert Join([a, b], sep) == a + [sep] + b;
    SplitJoin([a, b], sep);
  }

  /** Map `trim` over pieces: `s.split(sep).map(x => x.trim())`. */
  function TrimAll(parts: seq<string>): (r: seq<string>)
    ensures |r| == |parts|
    ensures forall i :: 0 <= i < |r| ==> r[i] == Trim(parts[i])
  {
    if parts == [] then [] else [Trim(parts[0])] + TrimAll(parts[1..])
  }

  // --------------------------------------------------------- lower case

  /** `toLowerCase` on one character, for the ASCII letters. */
  function LowerChar(c: char): char {
    if IsUpper(c) then (c as int + 32) as char else c
  }

  function ToLower(s: string): (r: string)
    ensures |r| == |s|
    ensures forall i :: 0 <= i < |s| ==> r[i] == LowerChar(s[i])
  {
    if s == "" then "" else [LowerChar(s[0])] + ToLower(s[1..])
  }

  /** Lower-casing twice is lower-casing once. */
  lemma ToLowerTwice(s: string)
    ensures ToLower(ToLower(s)) == ToLower(s)
  {
    assert forall i :: 0 <= i < |s| ==> LowerChar(LowerChar(s[i])) == LowerChar(s[i]);
  }

  // ---------------------------------------------- space before capitals

  /** `s.replace(/([A-Z])/g, ' $1')`: a space is inserted before every capital letter. */
  function SpaceBeforeCapitals(s: string): (r: string)
    ensures |r| >= |s|
    ensures forall i {:trigger IsUpper(r[i])} :: 0 <= i < |r| && IsUpper(r[i]) ==> 0 < i && r[i - 1] == ' '
    ensures DropSpaceBeforeCapitals(r) == s
  {
    if s == "" then ""
    else
      var rest := SpaceBeforeCapitals(s[1..]);
      assert rest == "" || !IsUpper(rest[0]);
      var head := if IsUpper(s[0]) then [' ', s[0]] else [s[0]];
      assert (head + rest)[|head|..] == rest;
      assert s == [s[0]] + s[1..];
      head + rest
  }

  /** Removes one space before every capital letter: the inverse of `SpaceBeforeCapitals`. */
  function DropSpaceBeforeCapitals(t: string): (r: string)
    ensures |r| <= |t|
  {
    if |t| >= 2 && t[0] == ' ' && IsUpper(t[1]) then [t[1]] + DropSpaceBeforeCapitals(t[2..])
    else if t == "" then ""
    else [t[0]] + DropSpaceBeforeCapitals(t[1..])
  }

  // ------------------------------------------------------ white space removed

  /** The characters of `s` that are not white space, in order. */
  function Unspaced(s: string): (r: string)
    ensures NoSpace(r) && |r| <= |s|
  {
    if s == "" then "" else (if IsSpace(s[0]) then "" else [s[0]]) + Unspaced(s[1..])
  }

  lemma {:induction false} UnspacedAppend(a: string, b: string)
    ensures Unspaced(a + b) == Unspaced(a) + Unspaced(b)
  {
    if a == "" {
      assert a + b == b;
    } else {
      var ab := a + b;
      assert ab[0] == a[0] && ab[1..] == a[1..] + b;
      UnspacedAppend(a[1..], b);
      var head := if IsSpace(a[0]) then "" else [a[0]];
      assert Unspaced(ab) == head + Unspaced(ab[1..]);
      assert Unspaced(a) == head + Unspaced(a[1..]);
    }
  }

  lemma {:induction false} UnspacedAllSpace(s: string)
    requires AllSpace(s)
    ensures Unspaced(s) == ""
  {
    if s != "" {
      UnspacedAllSpace(s[1..]);
    }
  }

  /** Trimming removes only white space. */
  lemma UnspacedTrim(s: string)
    ensures Unspaced(Trim(s)) == Unspaced(s)
  {
    var st := TrimStart(s);
    assert Trim(s) == TrimEnd(st);
    UnspacedTrimStart(s);
    UnspacedTrimEnd(st);
  }

  lemma UnspacedTrimStart(s: string)
    ensures Unspaced(TrimStart(s)) == Unspaced(s)
  {
    var st := TrimStart(s);
    var k := |s| - |st|;
    assert s == s[..k] + st;
    UnspacedAppend(s[..k], st);
    UnspacedAllSpace(s[..k]);
  }

  lemma UnspacedTrimEnd(s: string)
    ensures Unspaced(TrimEnd(s)) == Unspaced(s)
  {
    var r := TrimEnd(s);
    assert s == r + s[|r|..];
    UnspacedAppend(r, s[|r|..]);
    UnspacedAllSpace(s[|r|..]);
  }

  /** Inserting spaces before capitals adds only white space. */
  lemma {:induction false} UnspacedSpaceBeforeCapitals(s: string)
    ensures Unspaced(SpaceBeforeCapitals(s)) == Unspaced(s)
  {
    if s != "" {
      var c, tail := s[0], s[1..];
      var head := if IsUpper(c) then [' ', c] else [c];
      var spaced := SpaceBeforeCapitals(tail);
      assert SpaceBeforeCapitals(s) == head + spaced;
      UnspacedAppend(head, spaced);
      UnspacedSpaceBeforeCapitals(tail);
      assert s == [c] + tail;
      UnspacedAppend([c], tail);
      if IsUpper(c) {
        assert head == [' '] + [c];
        UnspacedAppend([' '], [c]);
        assert Unspaced([' ']) == "";
      }
    }
  }

  lemma {:induction false} SpaceBeforeCapitalsNoCapitals(s: string)
    requires forall i :: 0 <= i < |s| ==> !IsUpper(s[i])
    ensures SpaceBeforeCapitals(s) == s
  {
    if s != "" {
      SpaceBeforeCapitalsNoCapitals(s[1..]);
    }
  }

  // ------------------------------------------------------- form shapes

  /**
   * `/\S+@\S+\.\S+/.test(s)`: somewhere in `s` a non-space character, an `@`,
   * a non-empty run without white space, a `.`, and a non-space character.
   */
  predicate MatchesEmailPattern(s: string) {
    exists at, dot | 0 < at < dot < |s| :: EmailMatchAt(s, at, dot)
  }

  /** The pattern matches with its `@` at index `at` and its `.` at index `dot`. */
  predicate EmailMatchAt(s: string, at: int, dot: int) {
    0 < at && at + 1 < dot && dot + 1 < |s| &&
    s[at] == '@' && s[dot] == '.' &&
    !IsSpace(s[at - 1]) && NoSpace(s[at + 1..dot]) && !IsSpace(s[dot + 1])
  }

  lemma EmailPatternNeedsAtAndDot(s: string)
    requires MatchesEmailPattern(s)
    ensures '@' in s && '.' in s && |s| >= 5
  {
    var at, dot :| 0 < at < dot < |s| && EmailMatchAt(s, at, dot);
    assert s[at] == '@' && s[dot] == '.';
  }

  /** An address of the usual form `local@domain.tld` with non-blank parts matches. */
  lemma EmailPatternAccepts(local: string, domain: string, tld: string)
    requires local != "" && domain != "" && tld != ""
    requires NoSpace(local) && NoSpace(domain) && NoSpace(tld)
    ensures MatchesEmailPattern(local + "@" + domain + "." + tld)
  {
    var s := local + "@" + domain + "." + tld;
    var at, dot := |local|, |local| + 1 + |domain|;
    assert s[at] == '@' && s[dot] == '.';
    assert s[at - 1] == local[|local| - 1];
    assert s[dot + 1] == tld[0];
    assert s[at + 1..dot] == domain;
    assert EmailMatchAt(s, at, dot);
  }

  /** `/^\d{10}$/.test(s)`. */
  predicate IsTenDigits(s: string) { |s| == 10 && AllDigits(s) }

  /** The country-code test `value === "+" || /^\+\d*$/.test(value)`. */
  predicate IsCountryCode(s: string) {
    s == "+" || (|s| >= 1 && s[0] == '+' && AllDigits(s[1..]))
  }

  /** The `mobileno` the forms send: `${countryCode} ${mobile}`. */
  function ComposePhone(code: string, number: string): string {
    code + " " + number
  }

  /** An accepted country code and a sanitised number can be read back from the composed phone. */
  lemma PhoneRoundTrip(code: string, number: string)
    requires IsCountryCode(code) && AllDigits(number)
    ensures Split(ComposePhone(code, number), ' ') == [code, number]
  {
    assert forall i :: 1 <= i < |code| ==> code[i] == code[1..][i - 1];
    assert Join([code, number], ' ') == ComposePhone(code, number);
    SplitJoin([code, number], ' ');
  }
}
