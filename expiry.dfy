/** formatExpiryTime: how long an OAuth token remains valid, as `HHh MMm SSs`.
    The clock is a parameter (`now`, in milliseconds) instead of `Date.now()`. */
module Expiry {
  import opened Wrappers
  import opened JsValues

  const NO_EXPIRY: string := "No expiry date available"
  const EXPIRED: string := "Token has expired"

  predicate AllDigits(s: string) {
    forall i :: 0 <= i < |s| ==> IsDigit(s[i])
  }

  /** `String(n).padStart(2, "0")`: at least two digits, more for large hour counts. */
  function Pad2(n: nat): (r: string)
    ensures AllDigits(r)
    ensures |r| >= 2
    ensures n < 100 ==> |r| == 2
  {
    var d := NatToDecimal(n);
    assert 10 <= n < 100 ==> |NatToDecimal(n / 10)| == 1;
    if |d| < 2 then "0" + d else d
  }

  /** A numeral of two or more digits has no leading zero. */
  lemma {:induction false} NoLeadingZero(n: nat)
    requires n >= 10
    ensures NatToDecimal(n)[0] != '0'
  {
    if n / 10 >= 10 {
      NoLeadingZero(n / 10);
    } else {
      assert NatToDecimal(n / 10) == [DigitChar(n / 10)];
    }
    assert NatToDecimal(n)[0] == NatToDecimal(n / 10)[0];
  }

  /** The hours field `padStart(2, "0")` prints: a leading zero only in a two-digit field. */
  predicate PaddedHours(s: string) {
    |s| >= 2 && (|s| > 2 ==> s[0] != '0')
  }

  lemma Pad2Hours(n: nat)
    ensures PaddedHours(Pad2(n))
  {
    if |Pad2(n)| > 2 {
      NoLeadingZero(n);
    }
  }

  /** A leading zero does not change the value of a numeral. */
  lemma {:induction false} LeadingZero(d: string)
    requires AllDigits(d)
    ensures DecimalValue("0" + d) == DecimalValue(d)
  {
    if d != [] {
      LeadingZero(d[..|d| - 1]);
      assert ("0" + d)[..|"0" + d| - 1] == "0" + d[..|d| - 1];
    }
  }

  lemma Pad2Value(n: nat)
    ensures DecimalValue(Pad2(n)) == n
  {
    DecimalRoundTrip(n);
    LeadingZero(NatToDecimal(n));
  }

  /** `HHh MMm SSs` for a number of whole seconds. */
  function DurationText(totalSeconds: nat): string {
    var hours := totalSeconds / 3600;
    var rest := totalSeconds % 3600;
    var minutes := rest / 60;
    var seconds := rest % 60;
    Pad2(hours) + "h " + Pad2(minutes) + "m " + Pad2(seconds) + "s"
  }

  /** formatExpiryTime(expiry) with `Date.now()` read as `now`.  A missing,
      zero or non-numeric timestamp has no expiry; a past or present one has
      expired; otherwise the text reads back as exactly the whole seconds left. */
  function FormatExpiryTime(expiryTimestamp: JsValue, now: int): (r: string)
    ensures !expiryTimestamp.Num? || expiryTimestamp.n == 0 ==> r == NO_EXPIRY
    ensures expiryTimestamp.Num? && expiryTimestamp.n != 0 && expiryTimestamp.n <= now ==> r == EXPIRED
    ensures expiryTimestamp.Num? && expiryTimestamp.n != 0 && expiryTimestamp.n > now ==>
      ReadDuration(r) == Some((expiryTimestamp.n - now) / 1000)
  {
    if !Truthy(expiryTimestamp) || !expiryTimestamp.Num? then NO_EXPIRY
    else if expiryTimestamp.n - now <= 0 then EXPIRED
    else RemainingText(expiryTimestamp.n - now)
  }

  /** The text for a positive number of milliseconds left, `Math.floor(diffMs / 1000)`
      whole seconds: it reads back as exactly those seconds. */
  function RemainingText(diffMs: int): (r: string)
    requires diffMs > 0
    ensures ReadDuration(r) == Some(diffMs / 1000)
  {
    DurationTextReadsBack(diffMs / 1000);
    DurationText(diffMs / 1000)
  }

  /** Reads a text of the form `<hours>h <MM>m <SS>s` back into a number of
      seconds; the hours are at least two digits with no leading zero beyond
      two, and minutes and seconds are two digits below 60. */
  function ReadDuration(text: string): Option<nat> {
    var n := |text|;
    if n < 11 then None
    else
      var hours := text[..n - 9];
      var mm := text[n - 7..n - 5];
      var ss := text[n - 3..n - 1];
      if text[n - 9..n - 7] == "h " && text[n - 5..n - 3] == "m " && text[n - 1] == 's'
         && AllDigits(hours) && AllDigits(mm) && AllDigits(ss) && PaddedHours(hours)
         && DecimalValue(mm) < 60 && DecimalValue(ss) < 60
      then Some(DecimalValue(hours) * 3600 + DecimalValue(mm) * 60 + DecimalValue(ss))
      else None
  }

  /** Reading a well-formed duration text gives its fields' weighted sum. */
  lemma {:induction false} ReadDurationFields(ph: string, pm: string, ps: string)
    requires AllDigits(ph) && AllDigits(pm) && AllDigits(ps)
    requires PaddedHours(ph) && |pm| == 2 && |ps| == 2
    requires DecimalValue(pm) < 60 && DecimalValue(ps) < 60
    ensures ReadDuration(ph + "h " + pm + "m " + ps + "s")
            == Some(DecimalValue(ph) * 3600 + DecimalValue(pm) * 60 + DecimalValue(ps))
  {
    var text := ph + "h " + pm + "m " + ps + "s";
    var n := |text|;
    assert n == |ph| + 9;
    assert text[..n - 9] == ph;
    assert text[n - 9..n - 7] == "h ";
    assert text[n - 7..n - 5] == pm;
    assert text[n - 5..n - 3] == "m ";
    assert text[n - 3..n - 1] == ps;
    assert text[n - 1] == 's';
  }

  /** Splitting a number of seconds into hours, minutes and seconds loses nothing. */
  lemma SplitSeconds(total: nat)
    ensures total == (total / 3600) * 3600 + (total % 3600 / 60) * 60 + total % 3600 % 60
  {
    var rest := total % 3600;
    assert total == (total / 3600) * 3600 + rest;
    assert rest == (rest / 60) * 60 + rest % 60;
  }

  /** A duration text reads back as the number of seconds it was made from:
      minutes and seconds always take two digits and stay below 60, so no
      field overflows into the next. */
  lemma {:induction false} DurationTextReadsBack(total: nat)
    ensures ReadDuration(DurationText(total)) == Some(total)
  {
    var h, m, s := total / 3600, total % 3600 / 60, total % 3600 % 60;
    Pad2Value(h);
    Pad2Value(m);
    Pad2Value(s);
    Pad2Hours(h);
    ReadDurationFields(Pad2(h), Pad2(m), Pad2(s));
    SplitSeconds(total);
  }
}
