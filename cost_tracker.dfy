/** `src/components/CostTracker.tsx`: `formatTime`, the elapsed-time label
    `Hh Mm Ss`. The simulated cost figures around it are not modelled. */
module CostTracker {
  import opened Wrappers
  import opened Text

  /** `formatTime(ms)` for an integral millisecond count. With a positive
      divisor Dafny's `/` rounds down, as `Math.floor(x / d)` does, and `%` is
      only taken of values the branch has already shown to be positive, where
      it agrees with JavaScript's remainder. */
  function FormatTime(ms: int): (r: string)
    ensures |r| > 0 && r[|r| - 1] == 's'
  {
    var seconds := ms / 1000;
    var minutes := seconds / 60;
    var hours := minutes / 60;
    if hours > 0 then
      IntToString(hours) + "h " + IntToString(minutes % 60) + "m " + IntToString(seconds % 60) + "s"
    else if minutes > 0 then
      IntToString(minutes) + "m " + IntToString(seconds % 60) + "s"
    else
      IntToString(seconds) + "s"
  }

  /** The label's fields: whole hours, then minutes and seconds each below 60,
      adding up to the whole seconds elapsed. */
  lemma FormatTimeFields(ms: int)
    ensures var s := ms / 1000;
      s >= 3600 ==> FormatTime(ms) == NatToString(s / 3600) + "h " + NatToString(s / 60 % 60) + "m " + NatToString(s % 60) + "s"
    ensures var s := ms / 1000;
      60 <= s < 3600 ==> FormatTime(ms) == NatToString(s / 60) + "m " + NatToString(s % 60) + "s"
    ensures var s := ms / 1000;
      s < 60 ==> FormatTime(ms) == IntToString(s) + "s"
    ensures var s := ms / 1000;
      s >= 0 ==> (s / 3600) * 3600 + (s / 60 % 60) * 60 + s % 60 == s && s / 60 % 60 < 60 && s % 60 < 60
  {
    var s := ms / 1000;
    assert s / 60 / 60 == s / 3600;
  }

  // ---- Reading a label back ------------------------------------------------------

  /** Scans decimal digits from the front of `s`, accumulating their value
      onto `acc`; returns the value and what follows the digits. */
  function ScanDigits(s: string, acc: nat): (nat, string)
    decreases |s|
  {
    if |s| > 0 && IsDigit(s[0]) then ScanDigits(s[1..], acc * 10 + (s[0] as int - '0' as int)) else (acc, s)
  }

  /** A run of at least one decimal digit at the front of `s`, as a number,
      and what follows it. */
  function ReadNat(s: string): Option<(nat, string)> {
    if |s| > 0 && IsDigit(s[0]) then Some(ScanDigits(s, 0)) else None
  }

  /** The scan stops exactly where the digits end. */
  lemma {:induction false} ScanDigitsSplit(d: string, rest: string, acc: nat)
    requires AllDigits(d)
    requires rest == [] || !IsDigit(rest[0])
    ensures ScanDigits(d + rest, acc) == (ScanDigits(d, acc).0, rest)
    decreases |d|
  {
    if |d| == 0 {
      assert d + rest == rest;
    } else {
      assert (d + rest)[0] == d[0];
      assert (d + rest)[1..] == d[1..] + rest;
      ScanDigitsSplit(d[1..], rest, acc * 10 + (d[0] as int - '0' as int));
    }
  }

  /** One more digit at the end multiplies the value so far by ten and adds it. */
  lemma {:induction false} ScanDigitsSnoc(d: string, c: char, acc: nat)
    requires AllDigits(d) && IsDigit(c)
    ensures ScanDigits(d + [c], acc).0 == ScanDigits(d, acc).0 * 10 + (c as int - '0' as int)
    decreases |d|
  {
    if |d| == 0 {
      assert d + [c] == [c];
      assert [c][1..] == [];
    } else {
      assert (d + [c])[1..] == d[1..] + [c];
      ScanDigitsSnoc(d[1..], c, acc * 10 + (d[0] as int - '0' as int));
    }
  }

  /** Scanning what NatToString wrote gives the number back. */
  lemma {:induction false} ScanNatToString(n: nat)
    ensures ScanDigits(NatToString(n), 0).0 == n
    decreases n
  {
    if n < 10 {
      assert [DigitChar(n)][1..] == [];
    } else {
      ScanNatToString(n / 10);
      ScanDigitsSnoc(NatToString(n / 10), DigitChar(n % 10), 0);
    }
  }

  lemma ReadNatOf(n: nat, rest: string)
    requires rest == [] || !IsDigit(rest[0])
    ensures ReadNat(NatToString(n) + rest) == Some((n, rest))
  {
    ScanDigitsSplit(NatToString(n), rest, 0);
    ScanNatToString(n);
    assert (NatToString(n) + rest)[0] == NatToString(n)[0];
  }

  /** `<c>s`: a seconds field ending the label. */
  function SecondsField(t: string): Option<nat> {
    match ReadNat(t)
    case Some((c, r)) => if r == "s" then Some(c) else None
    case None => None
  }

  /** `<b>m <c>s`: minutes and seconds ending the label, in seconds. */
  function MinutesField(t: string): Option<nat> {
    match ReadNat(t)
    case Some((b, r)) =>
      if "m " <= r then
        match SecondsField(r[2..])
        case Some(c) => Some(b * 60 + c)
        case None => None
      else None
    case None => None
  }

  /** What follows the leading number `a` of a label. */
  function Units(a: nat, rest: string): Option<int> {
    if rest == "s" then Some(a)
    else if "m " <= rest then
      match SecondsField(rest[2..])
      case Some(c) => Some(a * 60 + c)
      case None => None
    else if "h " <= rest then
      match MinutesField(rest[2..])
      case Some(c) => Some(a * 3600 + c)
      case None => None
    else None
  }

  /** The whole seconds a label stands for; None for a string no label has. */
  function ParseTime(s: string): (r: Option<int>)
    ensures r.Some? && r.value < 0 ==> "-" <= s
    ensures r.Some? && !("-" <= s) ==> r.value >= 0
  {
    if "-" <= s then
      match SecondsField(s[1..])
      case Some(n) => Some(0 - n)
      case None => None
    else
      match ReadNat(s)
      case Some((a, rest)) => Units(a, rest)
      case None => None
  }

  lemma SecondsFieldOf(c: nat)
    ensures SecondsField(NatToString(c) + "s") == Some(c)
  {
    ReadNatOf(c, "s");
  }

  lemma MinutesFieldOf(b: nat, c: nat)
    ensures MinutesField(NatToString(b) + ("m " + (NatToString(c) + "s"))) == Some(b * 60 + c)
  {
    var tail := NatToString(c) + "s";
    ReadNatOf(b, "m " + tail);
    assert ("m " + tail)[2..] == tail;
    SecondsFieldOf(c);
  }

  /** A label that does not start with `-` is read as its leading number and units. */
  lemma ParseUnsigned(t: string, a: nat, rest: string)
    requires ReadNat(t) == Some((a, rest))
    ensures ParseTime(t) == Units(a, rest)
  {
    assert !("-" <= t);
  }

  lemma UnitsHours(a: nat, tail: string, c: nat)
    requires MinutesField(tail) == Some(c)
    ensures Units(a, "h " + tail) == Some(a * 3600 + c)
  {
    assert ("h " + tail)[0] == 'h';
    assert ("h " + tail)[2..] == tail;
  }

  lemma ParseSecondsLabel(n: nat)
    ensures ParseTime(NatToString(n) + "s") == Some(n)
  {
    ReadNatOf(n, "s");
    ParseUnsigned(NatToString(n) + "s", n, "s");
  }

  lemma ParseMinutesLabel(m: nat, s: nat)
    ensures ParseTime(NatToString(m) + "m " + NatToString(s) + "s") == Some(m * 60 + s)
  {
    MinutesLead(m, s);
    MinutesUnits(m, s);
    ParseUnsigned(NatToString(m) + "m " + NatToString(s) + "s", m, "m " + (NatToString(s) + "s"));
  }

  lemma MinutesLead(m: nat, s: nat)
    ensures ReadNat(NatToString(m) + "m " + NatToString(s) + "s") == Some((m, "m " + (NatToString(s) + "s")))
  {
    var tail := NatToString(s) + "s";
    assert NatToString(m) + "m " + NatToString(s) + "s" == NatToString(m) + ("m " + tail);
    ReadNatOf(m, "m " + tail);
  }

  lemma MinutesUnits(m: nat, s: nat)
    ensures Units(m, "m " + (NatToString(s) + "s")) == Some(m * 60 + s)
  {
    var tail := NatToString(s) + "s";
    SecondsFieldOf(s);
    assert ("m " + tail)[0] == 'm';
    assert ("m " + tail)[2..] == tail;
  }

  lemma HoursLead(h: nat, m: nat, s: nat)
    ensures ReadNat(NatToString(h) + "h " + NatToString(m) + "m " + NatToString(s) + "s")
            == Some((h, "h " + (NatToString(m) + ("m " + (NatToString(s) + "s")))))
  {
    var mid := NatToString(m) + ("m " + (NatToString(s) + "s"));
    assert NatToString(h) + "h " + NatToString(m) + "m " + NatToString(s) + "s" == NatToString(h) + ("h " + mid);
    ReadNatOf(h, "h " + mid);
  }

  lemma HoursUnits(h: nat, m: nat, s: nat)
    ensures Units(h, "h " + (NatToString(m) + ("m " + (NatToString(s) + "s")))) == Some(h * 3600 + (m * 60 + s))
  {
    MinutesFieldOf(m, s);
    UnitsHours(h, NatToString(m) + ("m " + (NatToString(s) + "s")), m * 60 + s);
  }

  lemma ParseHoursLabel(h: nat, m: nat, s: nat)
    ensures ParseTime(NatToString(h) + "h " + NatToString(m) + "m " + NatToString(s) + "s") == Some(h * 3600 + m * 60 + s)
  {
    HoursLead(h, m, s);
    HoursUnits(h, m, s);
    ParseUnsigned(NatToString(h) + "h " + NatToString(m) + "m " + NatToString(s) + "s",
                  h, "h " + (NatToString(m) + ("m " + (NatToString(s) + "s"))));
  }

  /** Every label reads back as the whole seconds it was made from. */
  lemma FormatTimeRoundTrip(ms: int)
    ensures ParseTime(FormatTime(ms)) == Some(ms / 1000)
  {
    var s := ms / 1000;
    if s >= 3600 {
      HoursRoundTrip(ms);
    } else if s >= 60 {
      MinutesRoundTrip(ms);
    } else {
      SecondsRoundTrip(ms);
    }
  }

  lemma HoursRoundTrip(ms: int)
    requires ms / 1000 >= 3600
    ensures ParseTime(FormatTime(ms)) == Some(ms / 1000)
  {
    var s := ms / 1000;
    var (h, m, sec) := (s / 3600, s / 60 % 60, s % 60);
    assert FormatTime(ms) == NatToString(h) + "h " + NatToString(m) + "m " + NatToString(sec) + "s"
      && h * 3600 + m * 60 + sec == s by {
      FormatTimeFields(ms);
    }
    ParseHoursLabel(h, m, sec);
  }

  lemma MinutesRoundTrip(ms: int)
    requires 60 <= ms / 1000 < 3600
    ensures ParseTime(FormatTime(ms)) == Some(ms / 1000)
  {
    var s := ms / 1000;
    assert FormatTime(ms) == NatToString(s / 60) + "m " + NatToString(s % 60) + "s" by {
      FormatTimeFields(ms);
    }
    ParseMinutesLabel(s / 60, s % 60);
  }

  lemma SecondsRoundTrip(ms: int)
    requires ms / 1000 < 60
    ensures ParseTime(FormatTime(ms)) == Some(ms / 1000)
  {
    var s := ms / 1000;
    if s >= 0 {
      assert FormatTime(ms) == NatToString(s) + "s" by {
        FormatTimeFields(ms);
      }
      ParseSecondsLabel(s);
    } else {
      var shown := "-" + NatToString(-s) + "s";
      assert FormatTime(ms) == shown by {
        FormatTimeFields(ms);
      }
      assert shown[1..] == NatToString(-s) + "s";
      SecondsFieldOf(-s);
    }
  }

  /** Two durations get the same label exactly when they have the same whole seconds. */
  lemma FormatTimeDistinguishesSeconds(x: int, y: int)
    ensures FormatTime(x) == FormatTime(y) <==> x / 1000 == y / 1000
  {
    FormatTimeRoundTrip(x);
    FormatTimeRoundTrip(y);
  }
}
