/**
 * Input handling shared by the public inquiry, contact and career forms:
 * the country-code field, the mobile field and the checks behind their
 * error messages.
 */
module PublicForms {
  import opened Text

  const DefaultCountryCode := "+91"
  const MobileLength := 10
  /** The country-code input's `maxLength`. */
  const CountryCodeLength := 5

  /** What the country-code input passes on when `typed` is entered: the browser keeps at most five characters. */
  function CountryCodeEntry(typed: string): (r: string)
    ensures |r| <= CountryCodeLength && |r| <= |typed| && r == typed[..|r|]
    ensures |typed| <= CountryCodeLength ==> r == typed
    ensures |typed| > CountryCodeLength ==> |r| == CountryCodeLength
  {
    if |typed| <= CountryCodeLength then typed else typed[..CountryCodeLength]
  }

  /**
   * A country-code edit: the entry is taken when it is "+" or "+" followed
   * by digits, and otherwise the field keeps `current`. (The `|| "+91"`
   * fallback in the handlers can never apply: an accepted edit is never
   * empty.)
   */
  function AcceptCountryCode(current: string, typed: string): (r: string)
    ensures IsCountryCode(CountryCodeEntry(typed)) ==> r == CountryCodeEntry(typed)
    ensures !IsCountryCode(CountryCodeEntry(typed)) ==> r == current
    ensures |typed| <= CountryCodeLength ==> (IsCountryCode(typed) ==> r == typed) && (!IsCountryCode(typed) ==> r == current)
    ensures IsCountryCode(current) ==> IsCountryCode(r) && r != ""
    ensures r != current ==> |r| <= CountryCodeLength && |r| <= |typed| && r == typed[..|r|]
  {
    var entry := CountryCodeEntry(typed);
    if IsCountryCode(entry) then entry else current
  }

  /** The field holds an acceptable mobile number in the making. */
  predicate MobileShape(s: string) {
    AllDigits(s) && |s| <= MobileLength
  }

  /**
   * A mobile edit: every non-digit is stripped, and the edit is ignored when
   * more than ten digits remain.
   */
  function SanitizeMobile(current: string, typed: string): (r: string)
    ensures |KeepDigits(typed)| <= MobileLength ==> r == KeepDigits(typed)
    ensures |KeepDigits(typed)| > MobileLength ==> r == current
    ensures MobileShape(current) ==> MobileShape(r)
  {
    var digits := KeepDigits(typed);
    if |digits| <= MobileLength then digits else current
  }

  /** Typing back what the field already shows leaves it as it is. */
  lemma SanitizeMobileKeeps(current: string, shown: string)
    requires MobileShape(shown)
    ensures SanitizeMobile(current, shown) == shown
  {
    KeepDigitsOfDigits(shown);
  }

  /** The email check `!email.trim() || !/\S+@\S+\.\S+/.test(email)`. */
  predicate EmailRejected(e: string) {
    IsBlank(e) || !MatchesEmailPattern(e)
  }

  /** The mobile check `!mobile.trim() || !/^\d{10}$/.test(mobile)`. */
  predicate MobileRejected(m: string) {
    IsBlank(m) || !IsTenDigits(m)
  }

  /** The blank test in the email check is subsumed by the pattern. */
  lemma EmailRejectedByPattern(e: string)
    ensures EmailRejected(e) <==> !MatchesEmailPattern(e)
  {
    if MatchesEmailPattern(e) {
      var at, dot :| 0 < at < dot < |e| && EmailMatchAt(e, at, dot);
      NotAllSpace(e, at);
    }
  }

  /** The blank test in the mobile check is subsumed by the ten-digit test. */
  lemma MobileRejectedByLength(m: string)
    ensures MobileRejected(m) <==> !IsTenDigits(m)
  {
    if IsTenDigits(m) {
      NotAllSpace(m, 0);
    }
  }

  lemma NotAllSpace(s: string, i: int)
    requires 0 <= i < |s| && !IsSpace(s[i])
    ensures !IsBlank(s)
  {
    assert !AllSpace(s);
  }
}
