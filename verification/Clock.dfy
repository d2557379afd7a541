/**
 * The `HH:MM:SS` rendering of a millisecond duration used for the summary's
 * `total_time` and for each work-order string: `Math.floor` divisions, the
 * truncating `%`, and `padStart(2, '0')` on every field.
 */
module Clock {
  import opened Wrappers
  import opened JsValues

  /** The three numeric fields before they are printed. */
  datatype Fields = Fields(hours: int, minutes: int, seconds: int)

  /** The source's arithmetic: floor by 1000, floor by 3600, and `%` for the lower fields. */
  function Split(ms: int): (f: Fields)
    ensures ms >= 0 ==> f.hours >= 0 && 0 <= f.minutes < 60 && 0 <= f.seconds < 60
    ensures ms >= 0 ==> f.hours * 3600 + f.minutes * 60 + f.seconds == ms / 1000
  {
    var totalSeconds := ms / 1000;
    Fields(totalSeconds / 3600, JsRem(totalSeconds, 3600) / 60, JsRem(totalSeconds, 60))
  }

  /** `String(n).padStart(2, '0')`. */
  function Pad2(n: int): string {
    PadStart(IntToString(n), 2, '0')
  }

  /**
   * The `HH:MM:SS` text of a duration in milliseconds. For a non-negative
   * total it reads back as the whole seconds it stands for.
   */
  function Format(ms: int): (r: string)
    ensures ms >= 0 ==> Parse(r) == Some(ms / 1000)
    // the hour field is padded to two digits and never beyond
    ensures 0 <= ms && ms / 3600000 < 100 ==> |r| == 8
    ensures ms >= 0 && ms / 3600000 >= 10 ==> r[0] != '0'
  {
    if ms >= 0 then
      JoinRoundTrip(Split(ms), ms / 1000);
      JoinShape(Split(ms));
      Join(Split(ms))
    else
      Join(Split(ms))
  }

  /** The printed fields, each padded to two characters and separated by colons. */
  function Join(f: Fields): string {
    Colons(Pad2(f.hours), Pad2(f.minutes), Pad2(f.seconds))
  }

  function Colons(h: string, m: string, sec: string): string {
    h + ":" + m + ":" + sec
  }

  /**
   * Reads an `H:MM:SS` text back into whole seconds: at least two hour
   * digits, exactly two minute and two second digits, each below 60.
   */
  function Parse(s: string): Option<int> {
    if |s| < 8 then None
    else
      var n := |s|;
      if s[n - 6] == ':' && s[n - 3] == ':'
      then ParseFields(s[..n - 6], s[n - 5..n - 3], s[n - 2..])
      else None
  }

  /** The seconds denoted by separate hour, minute and second texts, if they are well formed. */
  function ParseFields(h: string, m: string, sec: string): Option<int> {
    if AllDigits(h) && AllDigits(m) && AllDigits(sec) && ParseNat(m) < 60 && ParseNat(sec) < 60
    then Some(ParseNat(h) * 3600 + ParseNat(m) * 60 + ParseNat(sec))
    else None
  }

  /** A padded non-negative field is at least two characters long, exactly two below 100. */
  lemma Pad2Length(n: nat)
    ensures |Pad2(n)| >= 2
    ensures n < 100 ==> |Pad2(n)| == 2
  {
  }

  /** A padded non-negative field is all digits and reads back as itself. */
  lemma Pad2Digits(n: nat)
    ensures AllDigits(Pad2(n)) && ParseNat(Pad2(n)) == n
  {
    var s := NatToString(n);
    ParseNatToString(n);
    if n < 10 {
      assert Repeat('0', 1) == "0";
      assert Pad2(n) == "0" + s;
      ParseNatLeadingZero(s);
    } else {
      assert Pad2(n) == s;
    }
  }

  /** A joined clock text is parsed field by field. */
  lemma ParseSplitsFields(ph: string, pm: string, ps: string)
    requires |ph| >= 2 && |pm| == 2 && |ps| == 2
    ensures Parse(Colons(ph, pm, ps)) == ParseFields(ph, pm, ps)
  {
    var s := ph + ":" + pm + ":" + ps;
    var n := |s|;
    assert n == |ph| + 6;
    assert s[..n - 6] == ph;
    assert s[n - 5..n - 3] == pm;
    assert s[n - 2..] == ps;
    assert s[n - 6] == ':' && s[n - 3] == ':';
  }

  /** Digit texts with known values are read back as the seconds they denote. */
  lemma ParseFieldsValue(ph: string, pm: string, ps: string, h: nat, m: nat, sec: nat)
    requires AllDigits(ph) && AllDigits(pm) && AllDigits(ps)
    requires ParseNat(ph) == h && ParseNat(pm) == m && ParseNat(ps) == sec
    requires m < 60 && sec < 60
    ensures ParseFields(ph, pm, ps) == Some(h * 3600 + m * 60 + sec)
  {
  }

  /** Padded in-range fields are read back as the seconds they denote. */
  lemma ParsePaddedFields(h: nat, m: nat, sec: nat)
    requires m < 60 && sec < 60
    ensures ParseFields(Pad2(h), Pad2(m), Pad2(sec)) == Some(h * 3600 + m * 60 + sec)
  {
    Pad2Digits(h);
    Pad2Digits(m);
    Pad2Digits(sec);
    ParseFieldsValue(Pad2(h), Pad2(m), Pad2(sec), h, m, sec);
  }

  /** Joining well-formed field texts gives a text parsed to the same seconds. */
  lemma ParseJoinedFields(ph: string, pm: string, ps: string, v: int)
    requires |ph| >= 2 && |pm| == 2 && |ps| == 2
    requires ParseFields(ph, pm, ps) == Some(v)
    ensures Parse(Colons(ph, pm, ps)) == Some(v)
  {
    ParseSplitsFields(ph, pm, ps);
  }

  /** In-range fields print as a text that reads back as the seconds they denote. */
  lemma JoinRoundTrip(f: Fields, seconds: int)
    requires f.hours >= 0 && 0 <= f.minutes < 60 && 0 <= f.seconds < 60
    requires f.hours * 3600 + f.minutes * 60 + f.seconds == seconds
    ensures Parse(Join(f)) == Some(seconds)
  {
    var h, m, sec := f.hours, f.minutes, f.seconds;
    Pad2Length(h);
    Pad2Length(m);
    Pad2Length(sec);
    ParsePaddedFields(h, m, sec);
    ParseJoinedFields(Pad2(h), Pad2(m), Pad2(sec), seconds);
  }

  /** Only a one-digit hour count gets a leading zero; two-digit hours keep the text at eight characters. */
  lemma JoinShape(f: Fields)
    requires f.hours >= 0 && 0 <= f.minutes < 60 && 0 <= f.seconds < 60
    ensures f.hours < 100 ==> |Join(f)| == 8
    ensures f.hours >= 10 ==> Join(f)[0] != '0'
  {
    Pad2Length(f.hours);
    Pad2Length(f.minutes);
    Pad2Length(f.seconds);
    if f.hours >= 10 {
      assert Pad2(f.hours) == NatToString(f.hours);
      assert Join(f)[0] == Pad2(f.hours)[0];
    }
  }

  /** A total of 100 hours or more prints every hour digit and no padding. */
  lemma HundredSixtyHours()
    ensures Format(576000000) == "160:00:00"
  {
    assert Split(576000000) == Fields(160, 0, 0);
    assert NatToString(160) == "160" by {
      assert NatToString(16) == "16";
    }
    assert Pad2(0) == "00" by {
      assert Repeat('0', 1) == "0";
    }
  }

  /** Two non-negative totals print the same text only when they hold the same whole seconds. */
  lemma FormatInjective(a: int, b: int)
    requires a >= 0 && b >= 0
    ensures Format(a) == Format(b) <==> a / 1000 == b / 1000
  {
  }

  /**
   * Below zero every field takes the sign of the truncating `%`: a total of
   * minus one second prints as `-1:-1:-1`.
   */
  lemma NegativeSecond()
    ensures Format(-1000) == "-1:-1:-1"
  {
    assert Split(-1000) == Fields(-1, -1, -1);
    assert NatToString(1) == "1";
    assert IntToString(-1) == "-1";
    assert Pad2(-1) == "-1";
  }

  /** An hour and three quarters prints as `01:45:00`. */
  /** 5400000 ms prints as `01:30:00`. */
  lemma HourAndAHalf()
    ensures Format(5400000) == "01:30:00"
  {
    assert Split(5400000) == Fields(1, 30, 0);
    assert NatToString(1) == "1" && NatToString(30) == "30" && NatToString(0) == "0";
    assert Pad2(1) == "01" && Pad2(30) == "30" && Pad2(0) == "00";
    assert Colons("01", "30", "00") == "01:30:00";
  }

  lemma HourAndThreeQuarters()
    ensures Format(6300000) == "01:45:00"
  {
    assert Split(6300000) == Fields(1, 45, 0);
    assert NatToString(1) == "1" && NatToString(45) == "45" && NatToString(0) == "0";
    assert Pad2(1) == "01" && Pad2(45) == "45" && Pad2(0) == "00";
    assert Colons("01", "45", "00") == "01:45:00";
  }
}
