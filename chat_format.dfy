/**
 * `formatDate` of server/Routes/chat.ts: a time of day on the 24-hour clock as
 * text on the 12-hour clock, `<h>:<mm> <AM|PM>`. The hour and minute are the
 * inputs; reading them from a timestamp in the server's time zone is not part
 * of this model.
 */
module ChatFormat {
  import opened Text

  /** `String(m).padStart(2, "0")` */
  function TwoDigits(m: nat): (s: string)
    requires m < 100
    ensures |s| == 2 && AllDigits(s)
    ensures ParseDecimal(s) == m
  {
    DecimalRoundTrip(m);
    if m < 10 then
      assert ParseDecimal("0" + Decimal(m)) == ParseDecimal(Decimal(m)) by {
        assert ("0" + Decimal(m))[..1] == "0";
      }
      "0" + Decimal(m)
    else Decimal(m)
  }

  /** `hours % 12`, with 0 shown as 12. */
  function DisplayHour(h: nat): (d: nat)
    ensures 1 <= d <= 12
    ensures h % 12 == 0 ==> d == 12
    ensures h % 12 != 0 ==> d == h % 12
  {
    if h % 12 == 0 then 12 else h % 12
  }

  function Meridiem(h: nat): string {
    if h >= 12 then "PM" else "AM"
  }

  function FormatDate(h: nat, m: nat): (r: string)
    requires h < 24 && m < 60
    ensures |r| == 7 || |r| == 8
    ensures r[|r| - 6] == ':' && r[|r| - 3] == ' '
    ensures AllDigits(r[..|r| - 6]) && AllDigits(r[|r| - 5..|r| - 3])
    ensures r[|r| - 2..] == Meridiem(h)
    ensures 1 <= ParseDecimal(r[..|r| - 6]) <= 12 && r[0] != '0'
  {
    var d, mm, ap := Decimal(DisplayHour(h)), TwoDigits(m), Meridiem(h);
    Pieces(d, mm, ap);
    DecimalRoundTrip(DisplayHour(h));
    d + ":" + mm + " " + ap
  }

  /** The hour on the 24-hour clock that a 12-hour reading and its meridiem stand for. */
  function Hour24(h12: nat, ap: string): nat {
    if ap == "PM" then (if h12 == 12 then 12 else h12 + 12) else (if h12 == 12 then 0 else h12)
  }

  /** Reads a formatted time back as the hour and minute on the 24-hour clock. */
  function ParseTime(s: string): (hm: (nat, nat))
    requires |s| >= 6
  {
    var k := |s| - 6;
    (Hour24(ParseDecimal(s[..k]), s[k + 4..]), ParseDecimal(s[k + 1..k + 3]))
  }

  /** Where the pieces of `<d>:<mm> <ap>` stand. */
  lemma Pieces(d: string, mm: string, ap: string)
    requires |mm| == 2 && |ap| == 2
    ensures var r := d + ":" + mm + " " + ap;
      && |r| - 6 == |d| && r[..|d|] == d && r[|d|] == ':' && r[|d| + 1..|d| + 3] == mm
      && r[|d| + 3] == ' ' && r[|d| + 4..] == ap
  {
    var r := d + ":" + mm + " " + ap;
    assert r[..|d|] == d;
    assert r[|d| + 1..|d| + 3] == mm;
    assert r[|d| + 4..] == ap;
  }

  /** Taking apart `<d>:<mm> <ap>` gives back its three pieces. */
  lemma {:induction false} ParseTimeParts(d: string, mm: string, ap: string)
    requires |mm| == 2 && |ap| == 2
    ensures ParseTime(d + ":" + mm + " " + ap) == (Hour24(ParseDecimal(d), ap), ParseDecimal(mm))
  {
    Pieces(d, mm, ap);
  }

  /** The formatted text determines the time: no two times of day format alike. */
  lemma {:induction false} FormatRoundTrip(h: nat, m: nat)
    requires h < 24 && m < 60
    ensures ParseTime(FormatDate(h, m)) == (h, m)
  {
    ParseTimeParts(Decimal(DisplayHour(h)), TwoDigits(m), Meridiem(h));
    DecimalRoundTrip(DisplayHour(h));
    HourCases(h);
  }

  /** Midnight and noon both show as 12; the other hours keep their value modulo 12. */
  lemma HourCases(h: nat)
    requires h < 24
    ensures h == 0 ==> DisplayHour(h) == 12 && Meridiem(h) == "AM"
    ensures h == 12 ==> DisplayHour(h) == 12 && Meridiem(h) == "PM"
    ensures 1 <= h <= 11 ==> DisplayHour(h) == h && Meridiem(h) == "AM"
    ensures 13 <= h <= 23 ==> DisplayHour(h) == h - 12 && Meridiem(h) == "PM"
  {
  }

  /** Midnight, noon and the last minute of the day. */
  lemma Examples()
    ensures FormatDate(0, 5) == "12:05 AM"
    ensures FormatDate(12, 0) == "12:00 PM"
    ensures FormatDate(23, 59) == "11:59 PM"
  {
    MidnightExample();
    NoonExample();
    LastMinuteExample();
  }

  lemma MidnightExample()
    ensures FormatDate(0, 5) == "12:05 AM"
  {
    DecimalExamples();
    assert TwoDigits(5) == "0" + Decimal(5);
  }

  lemma NoonExample()
    ensures FormatDate(12, 0) == "12:00 PM"
  {
    DecimalExamples();
    assert TwoDigits(0) == "0" + Decimal(0);
  }

  lemma LastMinuteExample()
    ensures FormatDate(23, 59) == "11:59 PM"
  {
    DecimalExamples();
  }

  lemma DecimalExamples()
    ensures Decimal(12) == "12" && Decimal(11) == "11" && Decimal(59) == "59"
    ensures Decimal(5) == "5" && Decimal(0) == "0"
  {
  }
}
