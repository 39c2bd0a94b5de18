/**
 * Duration labels. The player screen shows `%02d:%02d` of minutes and
 * seconds with minutes unbounded; the list cells show `%02d:%02d` below one
 * hour and `%d:%02d:%02d` from one hour on. Times are whole seconds, taken
 * after the `Int(...)` truncation of the platform's floating-point value.
 *
 * `ParseClock` is the reader's side: it splits a label at ':' and reads the
 * fields as base-60 digits, so a label is correct when it reads back as the
 * time it was made from.
 */
module TimeFormat {
  import opened Options
  import opened Text

  /** `PlayerViewController.formatTime`. */
  function FormatMinutesSeconds(t: nat): string {
    Pad2(t / 60) + ":" + Pad2(t % 60)
  }

  /** `formatTime` of the music and video list cells. */
  function FormatClock(t: nat): string {
    var hours := t / 3600;
    var minutes := t % 3600 / 60;
    var secs := t % 60;
    if hours > 0 then DecimalString(hours) + ":" + Pad2(minutes) + ":" + Pad2(secs)
    else Pad2(minutes) + ":" + Pad2(secs)
  }

  /** The ':'-separated fields of a label. */
  function Fields(s: string): (fs: seq<string>)
    ensures |fs| >= 1
  {
    if s == [] then [""]
    else
      var rest := Fields(s[1..]);
      if s[0] == ':' then [""] + rest else [[s[0]] + rest[0]] + rest[1..]
  }

  /** Fields read as base-60 digits, most significant first; None if a field is not a numeral. */
  function ClockValue(fs: seq<string>): Option<nat> {
    if fs == [] then Some(0)
    else
      var last := fs[|fs| - 1];
      match ClockValue(fs[..|fs| - 1])
      case None => None
      case Some(v) => if last != [] && AllDigits(last) then Some(v * 60 + ParseDecimal(last)) else None
  }

  function ParseClock(text: string): Option<nat> {
    ClockValue(Fields(text))
  }

  lemma {:induction false} FieldsOfPlain(a: string)
    requires ':' !in a
    ensures Fields(a) == [a]
  {
    if a != [] {
      FieldsOfPlain(a[1..]);
      assert [a[0]] + a[1..] == a;
    }
  }

  lemma {:induction false} FieldsOfJoin(a: string, b: string)
    requires ':' !in a
    ensures Fields(a + ":" + b) == [a] + Fields(b)
  {
    if a == [] {
      assert (a + ":" + b)[1..] == b;
    } else {
      FieldsOfJoin(a[1..], b);
      assert (a + ":" + b)[1..] == a[1..] + ":" + b;
      assert [a[0]] + a[1..] == a;
    }
  }

  lemma NumeralHasNoColon(s: string)
    requires AllDigits(s)
    ensures ':' !in s
  {
  }

  lemma TwoFieldValue(a: string, b: string)
    requires a != [] && AllDigits(a) && b != [] && AllDigits(b)
    ensures ClockValue([a, b]) == Some(ParseDecimal(a) * 60 + ParseDecimal(b))
  {
    assert [a][..0] == [];
    assert ClockValue([a]) == Some(ParseDecimal(a));
    assert [a, b][..1] == [a];
  }

  lemma ThreeFieldValue(a: string, b: string, c: string)
    requires a != [] && AllDigits(a) && b != [] && AllDigits(b) && c != [] && AllDigits(c)
    ensures ClockValue([a, b, c]) == Some((ParseDecimal(a) * 60 + ParseDecimal(b)) * 60 + ParseDecimal(c))
  {
    assert [a, b, c][..2] == [a, b];
    TwoFieldValue(a, b);
  }

  /** A two-field label splits back into its fields and reads as their base-60 value. */
  lemma TwoFieldLabel(a: string, b: string)
    requires a != [] && AllDigits(a) && b != [] && AllDigits(b)
    ensures Fields(a + ":" + b) == [a, b]
    ensures ParseClock(a + ":" + b) == Some(ParseDecimal(a) * 60 + ParseDecimal(b))
  {
    NumeralHasNoColon(a);
    NumeralHasNoColon(b);
    FieldsOfJoin(a, b);
    FieldsOfPlain(b);
    TwoFieldValue(a, b);
  }

  lemma ThreeFieldLabel(a: string, b: string, c: string)
    requires a != [] && AllDigits(a) && b != [] && AllDigits(b) && c != [] && AllDigits(c)
    ensures Fields(a + ":" + b + ":" + c) == [a, b, c]
    ensures ParseClock(a + ":" + b + ":" + c) == Some((ParseDecimal(a) * 60 + ParseDecimal(b)) * 60 + ParseDecimal(c))
  {
    NumeralHasNoColon(a);
    assert a + ":" + b + ":" + c == a + ":" + (b + ":" + c);
    FieldsOfJoin(a, b + ":" + c);
    TwoFieldLabel(b, c);
    ThreeFieldValue(a, b, c);
  }

  /**
   * The player's label: two fields, both at least two digits, the seconds
   * field exactly two digits and below 60, and together they read back as t.
   */
  lemma FormatMinutesSecondsReadsBack(t: nat)
    ensures Fields(FormatMinutesSeconds(t)) == [Pad2(t / 60), Pad2(t % 60)]
    ensures t % 60 < 60 && |Pad2(t % 60)| == 2 && |Pad2(t / 60)| >= 2
    ensures ParseDecimal(Pad2(t / 60)) == t / 60 && ParseDecimal(Pad2(t % 60)) == t % 60
    ensures ParseClock(FormatMinutesSeconds(t)) == Some(t)
  {
    TwoFieldLabel(Pad2(t / 60), Pad2(t % 60));
  }

  /** Below one hour the cells' label is the player's label, hence always five characters. */
  lemma FormatsAgreeBelowOneHour(t: nat)
    requires t < 3600
    ensures FormatClock(t) == FormatMinutesSeconds(t)
    ensures |FormatClock(t)| == 5
  {
    assert t % 3600 == t;
  }

  lemma HoursMinutesSeconds(t: nat)
    ensures (t / 3600 * 60 + t % 3600 / 60) * 60 + t % 60 == t
    ensures t % 3600 / 60 < 60
  {
    var h, r := t / 3600, t % 3600;
    var m := r / 60;
    assert t == 3600 * h + r;
    assert r == 60 * m + r % 60;
    assert t == 60 * (60 * h + m) + r % 60;
    assert t % 60 == r % 60;
  }

  /**
   * The cells' label from one hour on: three fields, the hours field an
   * unpadded numeral without leading zero, minutes and seconds exactly two
   * digits and below 60, and the whole reads back as t.
   */
  lemma FormatClockWithHours(t: nat)
    requires t >= 3600
    ensures Fields(FormatClock(t)) == [DecimalString(t / 3600), Pad2(t % 3600 / 60), Pad2(t % 60)]
    ensures ParseDecimal(DecimalString(t / 3600)) == t / 3600 >= 1
    ensures |DecimalString(t / 3600)| > 1 ==> DecimalString(t / 3600)[0] != '0'
    ensures t % 3600 / 60 < 60 && |Pad2(t % 3600 / 60)| == 2 && |Pad2(t % 60)| == 2
    ensures ParseClock(FormatClock(t)) == Some(t)
  {
    var h, m, s := DecimalString(t / 3600), Pad2(t % 3600 / 60), Pad2(t % 60);
    assert FormatClock(t) == h + ":" + m + ":" + s;
    ThreeFieldLabel(h, m, s);
    ParseDecimalString(t / 3600);
    HoursMinutesSeconds(t);
  }

  /** Whatever the time, the cells' label reads back as it; the field count tells whether an hour has passed. */
  lemma FormatClockReadsBack(t: nat)
    ensures ParseClock(FormatClock(t)) == Some(t)
    ensures |Fields(FormatClock(t))| == if t >= 3600 then 3 else 2
  {
    if t >= 3600 {
      FormatClockWithHours(t);
    } else {
      FormatsAgreeBelowOneHour(t);
      FormatMinutesSecondsReadsBack(t);
    }
  }

  /** The reset text "00:00" the player writes by hand is the label of time zero. */
  lemma ZeroLabel()
    ensures FormatMinutesSeconds(0) == "00:00" && FormatClock(0) == "00:00"
  {
  }
}
