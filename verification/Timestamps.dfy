// models.py: the ISO texts the tables store, as produced by now_iso and iso_from_offset and read by
// parse_iso (date-time of section 5.6 of RFC 3339, whole seconds, UTC written as Z). The SQL guards compare
// these texts; the Python guards compare the instants. Both give the same answer (section 5.1 of RFC 3339).

module Timestamps {
  import opened Options

  // ---- the calendar ------------------------------------------------------------------------------------

  // A UTC wall-clock time of years 1 to 9999, as datetime holds it.
  datatype Civil = Civil(year: int, month: int, day: int, hour: int, minute: int, second: int)

  predicate Leap(y: int) { y % 4 == 0 && (y % 100 != 0 || y % 400 == 0) }

  function DaysInMonth(y: int, m: int): int {
    if m == 2 then (if Leap(y) then 29 else 28)
    else if m == 4 || m == 6 || m == 9 || m == 11 then 30
    else 31
  }

  function DaysInYear(y: int): int { if Leap(y) then 366 else 365 }

  predicate Valid(c: Civil) {
    && 1 <= c.year <= 9999 && 1 <= c.month <= 12 && 1 <= c.day <= DaysInMonth(c.year, c.month)
    && 0 <= c.hour < 24 && 0 <= c.minute < 60 && 0 <= c.second < 60
  }

  function DaysBeforeYear(y: int): (n: int)
    requires y >= 1
    ensures n >= 0
    decreases y
  {
    if y == 1 then 0 else DaysBeforeYear(y - 1) + DaysInYear(y - 1)
  }

  function DaysBeforeMonth(y: int, m: int): (n: int)
    requires 1 <= m <= 13
    ensures n >= 0
    decreases m
  {
    if m == 1 then 0 else DaysBeforeMonth(y, m - 1) + DaysInMonth(y, m - 1)
  }

  function DayNumber(c: Civil): int
    requires Valid(c)
  {
    DaysBeforeYear(c.year) + DaysBeforeMonth(c.year, c.month) + c.day - 1
  }

  // Seconds since the beginning of year 1.
  function ToSeconds(c: Civil): int
    requires Valid(c)
  {
    DayNumber(c) * 86400 + c.hour * 3600 + c.minute * 60 + c.second
  }

  lemma QuarterStep(y: int)
    ensures y / 4 == (y - 1) / 4 + if y % 4 == 0 then 1 else 0
  {
  }

  lemma CenturyStep(y: int)
    ensures y / 100 == (y - 1) / 100 + if y % 100 == 0 then 1 else 0
    ensures y % 100 == 0 ==> y % 4 == 0
  {
    if y % 100 == 0 { assert y == 4 * (25 * (y / 100)); }
  }

  lemma FourCenturyStep(y: int)
    ensures y / 400 == (y - 1) / 400 + if y % 400 == 0 then 1 else 0
    ensures y % 400 == 0 ==> y % 100 == 0
  {
    if y % 400 == 0 { assert y == 100 * (4 * (y / 400)); }
  }

  function Quotients(y: int): int { y / 4 - y / 100 + y / 400 }

  lemma LeapDay(y: int)
    ensures Quotients(y) == Quotients(y - 1) + if Leap(y) then 1 else 0
  {
    QuarterStep(y);
    CenturyStep(y);
    FourCenturyStep(y);
  }

  // Four years have 1461 days, a century one day less, four centuries one more again.
  lemma {:induction false} YearsInClosedForm(y: int)
    requires y >= 1
    ensures DaysBeforeYear(y) == 365 * (y - 1) + (y - 1) / 4 - (y - 1) / 100 + (y - 1) / 400
    decreases y
  {
    assert Quotients(y - 1) == (y - 1) / 4 - (y - 1) / 100 + (y - 1) / 400;
    if y > 1 {
      YearsInClosedForm(y - 1);
      assert Quotients(y - 2) == (y - 2) / 4 - (y - 2) / 100 + (y - 2) / 400;
      LeapDay(y - 1);
      hide Leap, Quotients;
    }
  }

  // The months by their ordinary lengths; the day a year has beyond 365 comes after February.
  lemma MonthsInClosedForm(y: int, m: int)
    requires y >= 1 && 1 <= m <= 12
    ensures DaysBeforeMonth(y, m) ==
              [0, 31, 59, 90, 120, 151, 181, 212, 243, 273, 304, 334][m - 1]
              + if m <= 2 then 0 else DaysBeforeYear(y + 1) - DaysBeforeYear(y) - 365
  {
    assert DaysBeforeMonth(y, 2) == 31;
    assert DaysBeforeMonth(y, 3) == 31 + DaysInMonth(y, 2);
    if m > 3 {
      assert DaysBeforeMonth(y, 4) == DaysBeforeMonth(y, 3) + 31;
      assert DaysBeforeMonth(y, 5) == DaysBeforeMonth(y, 4) + 30;
      assert DaysBeforeMonth(y, 6) == DaysBeforeMonth(y, 5) + 31;
      assert DaysBeforeMonth(y, 7) == DaysBeforeMonth(y, 6) + 30;
      assert DaysBeforeMonth(y, 8) == DaysBeforeMonth(y, 7) + 31;
      assert DaysBeforeMonth(y, 9) == DaysBeforeMonth(y, 8) + 31;
      assert DaysBeforeMonth(y, 10) == DaysBeforeMonth(y, 9) + 30;
      assert DaysBeforeMonth(y, 11) == DaysBeforeMonth(y, 10) + 31;
      assert DaysBeforeMonth(y, 12) == DaysBeforeMonth(y, 11) + 30;
    }
  }

  // The instant of a civil time, counted from the epoch of 1970 as timestamp() counts it.
  lemma InstantInClosedForm(c: Civil)
    requires Valid(c)
    ensures ToSeconds(c) - 62135596800 ==
              86400 * (365 * (c.year - 1970) + ((c.year - 1) / 4 - 492) - ((c.year - 1) / 100 - 19)
                       + ((c.year - 1) / 400 - 4) + DaysBeforeMonth(c.year, c.month) + c.day - 1)
              + 3600 * c.hour + 60 * c.minute + c.second
  {
    YearsInClosedForm(c.year);
    hide DaysBeforeMonth;
  }

  // ---- the text ----------------------------------------------------------------------------------------

  function Digit(n: int): char
    requires 0 <= n < 10
  {
    ('0' as int + n) as char
  }

  function Two(n: int): (s: string)
    requires 0 <= n < 100
    ensures |s| == 2
  {
    [Digit(n / 10), Digit(n % 10)]
  }

  function Four(n: int): (s: string)
    requires 0 <= n < 10000
    ensures |s| == 4
  {
    Two(n / 100) + Two(n % 100)
  }

  // isoformat(timespec="seconds") with +00:00 written as Z.
  function Encode(c: Civil): (s: string)
    requires Valid(c)
    ensures |s| == 20
  {
    Four(c.year) + "-" + Two(c.month) + "-" + Two(c.day) + "T" + Two(c.hour) + ":" + Two(c.minute) + ":"
        + Two(c.second) + "Z"
  }

  // TEXT comparison: first difference decides.
  predicate TextLess(a: string, b: string)
    decreases |a|
  {
    if b == [] then false
    else if a == [] then true
    else a[0] < b[0] || (a[0] == b[0] && TextLess(a[1..], b[1..]))
  }

  predicate IsDigit(c: char) { '0' <= c <= '9' }

  function ReadTwo(s: string): Option<int>
    requires |s| == 2
  {
    if IsDigit(s[0]) && IsDigit(s[1]) then Some((s[0] as int - '0' as int) * 10 + (s[1] as int - '0' as int)) else None
  }

  // parse_iso on texts of the stored shape; anything else is not such a text.
  function ParseStored(s: string): (r: Option<Civil>)
    ensures r.Some? ==> Valid(r.value)
  {
    if |s| != 20 || s[4] != '-' || s[7] != '-' || s[10] != 'T' || s[13] != ':' || s[16] != ':' || s[19] != 'Z' then None
    else
      var c1, c2 := ReadTwo(s[0..2]), ReadTwo(s[2..4]);
      var mo, d, h, mi, se := ReadTwo(s[5..7]), ReadTwo(s[8..10]), ReadTwo(s[11..13]), ReadTwo(s[14..16]),
          ReadTwo(s[17..19]);
      if c1.None? || c2.None? || mo.None? || d.None? || h.None? || mi.None? || se.None? then None
      else
        var c := Civil(c1.value * 100 + c2.value, mo.value, d.value, h.value, mi.value, se.value);
        if Valid(c) then Some(c) else None
  }

  // ---- round trip --------------------------------------------------------------------------------------

  lemma FourIsTwice(n: int)
    requires 0 <= n < 10000
    ensures Four(n) == Two(n / 100) + Two(n % 100)
  {
  }

  lemma EncodeShape(c: Civil)
    requires Valid(c)
    ensures var s := Encode(c);
            && s[4] == '-' && s[7] == '-' && s[10] == 'T' && s[13] == ':' && s[16] == ':' && s[19] == 'Z'
            && s[0..2] == Two(c.year / 100) && s[2..4] == Two(c.year % 100) && s[5..7] == Two(c.month)
            && s[8..10] == Two(c.day) && s[11..13] == Two(c.hour) && s[14..16] == Two(c.minute)
            && s[17..19] == Two(c.second)
  {
    hide Two, Four;
    var s := Encode(c);
    assert |Four(c.year)| == 4 && Four(c.year) == Two(c.year / 100) + Two(c.year % 100) by { FourIsTwice(c.year); }
    assert s[0] == Two(c.year / 100)[0] && s[1] == Two(c.year / 100)[1];
    assert s[2] == Two(c.year % 100)[0] && s[3] == Two(c.year % 100)[1];
    assert s[5] == Two(c.month)[0] && s[6] == Two(c.month)[1];
    assert s[8] == Two(c.day)[0] && s[9] == Two(c.day)[1];
    assert s[11] == Two(c.hour)[0] && s[12] == Two(c.hour)[1];
    assert s[14] == Two(c.minute)[0] && s[15] == Two(c.minute)[1];
    assert s[17] == Two(c.second)[0] && s[18] == Two(c.second)[1];
  }

  // A leap day, as the tables hold it.
  lemma LeapDayText()
    ensures var c := Civil(2024, 2, 29, 23, 59, 58); Valid(c) && Encode(c) == "2024-02-29T23:59:58Z"
    ensures !Valid(Civil(1900, 2, 29, 0, 0, 0)) && Valid(Civil(2000, 2, 29, 0, 0, 0))
  {
  }

  lemma ReadTwoInverts(n: int)
    requires 0 <= n < 100
    ensures ReadTwo(Two(n)) == Some(n)
  {
  }

  lemma TwoInverts(s: string)
    requires |s| == 2 && ReadTwo(s).Some?
    ensures 0 <= ReadTwo(s).value < 100 && Two(ReadTwo(s).value) == s
  {
  }

  // parse_iso inverts the encoding.
  lemma ParseEncode(c: Civil)
    requires Valid(c)
    ensures ParseStored(Encode(c)) == Some(c)
  {
  }

  // The digits of an accepted text are those of the fields it is read as.
  lemma ParsedFields(s: string)
    requires ParseStored(s).Some?
    ensures var c := ParseStored(s).value;
            && s[0..2] == Two(c.year / 100) && s[2..4] == Two(c.year % 100) && s[5..7] == Two(c.month)
            && s[8..10] == Two(c.day) && s[11..13] == Two(c.hour) && s[14..16] == Two(c.minute)
            && s[17..19] == Two(c.second)
  {
    TwoInverts(s[0..2]);
    TwoInverts(s[2..4]);
    TwoInverts(s[5..7]);
    TwoInverts(s[8..10]);
    TwoInverts(s[11..13]);
    TwoInverts(s[14..16]);
    TwoInverts(s[17..19]);
    hide Two, ReadTwo;
  }

  lemma SamePair(s: string, t: string, i: nat)
    requires i + 2 <= |s| && i + 2 <= |t| && s[i..i + 2] == t[i..i + 2]
    ensures s[i] == t[i] && s[i + 1] == t[i + 1]
  {
  }

  // Every text accepted is the encoding of what it was read as.
  lemma EncodeParse(s: string)
    requires ParseStored(s).Some?
    ensures Encode(ParseStored(s).value) == s
  {
    hide Encode, Two, ReadTwo, Valid;
    var c := ParseStored(s).value;
    ParsedFields(s);
    EncodeShape(c);
    SamePair(s, Encode(c), 0);
    SamePair(s, Encode(c), 2);
    SamePair(s, Encode(c), 5);
    SamePair(s, Encode(c), 8);
    SamePair(s, Encode(c), 11);
    SamePair(s, Encode(c), 14);
    SamePair(s, Encode(c), 17);
    assert |s| == 20 && s[4] == '-' && s[7] == '-' && s[10] == 'T' && s[13] == ':' && s[16] == ':' && s[19] == 'Z';
    hide ParseStored;
    assert s == Encode(c);
  }

  // ---- order -------------------------------------------------------------------------------------------

  // Field by field, most significant first.
  predicate CivilLess(a: Civil, b: Civil) {
    || a.year < b.year
    || (a.year == b.year &&
        (|| a.month < b.month
         || (a.month == b.month &&
             (|| a.day < b.day
              || (a.day == b.day &&
                  (|| a.hour < b.hour
                   || (a.hour == b.hour &&
                       (|| a.minute < b.minute
                        || (a.minute == b.minute && a.second < b.second)))))))))
  }

  // Comparing two texts is comparing equal-length prefixes, then the rests.
  lemma {:induction false} TextLessConcat(a: string, b: string, x: string, y: string)
    requires |a| == |b|
    ensures TextLess(a + x, b + y) <==> TextLess(a, b) || (a == b && TextLess(x, y))
    decreases |a|
  {
    if a == [] {
      assert a + x == x && b + y == y;
    } else {
      assert (a + x)[1..] == a[1..] + x && (b + y)[1..] == b[1..] + y;
      assert a == [a[0]] + a[1..] && b == [b[0]] + b[1..];
      TextLessConcat(a[1..], b[1..], x, y);
    }
  }

  lemma PairLess(a: char, b: char, c: char, d: char)
    ensures TextLess([a, b], [c, d]) <==> a < c || (a == c && b < d)
  {
    assert [a, b][1..] == [b] && [c, d][1..] == [d] && [b][1..] == [] && [d][1..] == [];
    assert TextLess([b], [d]) <==> b < d || (b == d && TextLess([b][1..], [d][1..]));
  }

  lemma TwoOrder(m: int, n: int)
    requires 0 <= m < 100 && 0 <= n < 100
    ensures TextLess(Two(m), Two(n)) <==> m < n
    ensures Two(m) == Two(n) <==> m == n
  {
    ReadTwoInverts(m);
    ReadTwoInverts(n);
    PairLess(Digit(m / 10), Digit(m % 10), Digit(n / 10), Digit(n % 10));
  }

  lemma FourOrder(m: int, n: int)
    requires 0 <= m < 10000 && 0 <= n < 10000
    ensures TextLess(Four(m), Four(n)) <==> m < n
    ensures Four(m) == Four(n) <==> m == n
  {
    TwoOrder(m / 100, n / 100);
    TwoOrder(m % 100, n % 100);
    TextLessConcat(Two(m / 100), Two(n / 100), Two(m % 100), Two(n % 100));
    assert Four(m)[..2] == Two(m / 100) && Four(m)[2..] == Two(m % 100);
    assert Four(n)[..2] == Two(n / 100) && Four(n)[2..] == Two(n % 100);
  }

  // A two-digit field followed by a separator and a rest.
  lemma FieldOrder(m: int, n: int, sep: string, x: string, y: string)
    requires 0 <= m < 100 && 0 <= n < 100 && |sep| == 1
    ensures TextLess(Two(m) + sep + x, Two(n) + sep + y) <==> m < n || (m == n && TextLess(x, y))
  {
    TwoOrder(m, n);
    TextLessConcat(Two(m) + sep, Two(n) + sep, x, y);
    TextLessConcat(Two(m), Two(n), sep, sep);
    assert !TextLess(sep, sep) by { assert sep[1..] == []; }
    assert (Two(m) + sep)[..2] == Two(m) && (Two(n) + sep)[..2] == Two(n);
  }

  function FromMinute(c: Civil): string
    requires Valid(c)
  { Two(c.minute) + ":" + (Two(c.second) + "Z" + "") }

  function FromDay(c: Civil): string
    requires Valid(c)
  { Two(c.day) + "T" + (Two(c.hour) + ":" + FromMinute(c)) }

  lemma EncodeByFields(c: Civil)
    requires Valid(c)
    ensures Encode(c) == (Four(c.year) + "-") + (Two(c.month) + "-" + FromDay(c))
  {
  }

  lemma TextOrderIsCivilOrder(a: Civil, b: Civil)
    requires Valid(a) && Valid(b)
    ensures TextLess(Encode(a), Encode(b)) <==> CivilLess(a, b)
  {
    EncodeByFields(a);
    EncodeByFields(b);
    FourOrder(a.year, b.year);
    TextLessConcat(Four(a.year) + "-", Four(b.year) + "-",
                   Two(a.month) + "-" + FromDay(a), Two(b.month) + "-" + FromDay(b));
    TextLessConcat(Four(a.year), Four(b.year), "-", "-");
    assert (Four(a.year) + "-")[..4] == Four(a.year) && (Four(b.year) + "-")[..4] == Four(b.year);
    FieldOrder(a.month, b.month, "-", FromDay(a), FromDay(b));
    FieldOrder(a.day, b.day, "T", Two(a.hour) + ":" + FromMinute(a), Two(b.hour) + ":" + FromMinute(b));
    FieldOrder(a.hour, b.hour, ":", FromMinute(a), FromMinute(b));
    FieldOrder(a.minute, b.minute, ":", Two(a.second) + "Z" + "", Two(b.second) + "Z" + "");
    FieldOrder(a.second, b.second, "Z", "", "");
  }

  lemma {:induction false} YearsGrow(y: int, z: int)
    requires 1 <= y < z
    ensures DaysBeforeYear(y) + DaysInYear(y) <= DaysBeforeYear(z)
    decreases z
  {
    if y < z - 1 { YearsGrow(y, z - 1); }
  }

  lemma {:induction false} MonthsGrow(y: int, m: int, n: int)
    requires 1 <= m < n <= 13
    ensures DaysBeforeMonth(y, m) + DaysInMonth(y, m) <= DaysBeforeMonth(y, n)
    decreases n
  {
    if m < n - 1 { MonthsGrow(y, m, n - 1); }
  }

  lemma MonthsFillYear(y: int)
    ensures DaysBeforeMonth(y, 13) == DaysInYear(y)
  {
  }

  lemma CivilLessIsEarlier(a: Civil, b: Civil)
    requires Valid(a) && Valid(b) && CivilLess(a, b)
    ensures ToSeconds(a) < ToSeconds(b)
  {
    if a.year < b.year {
      YearsGrow(a.year, b.year);
      MonthsFillYear(a.year);
      MonthsGrow(a.year, a.month, 13);
    } else if a.month < b.month {
      MonthsGrow(a.year, a.month, b.month);
    }
  }

  // The texts compare exactly as the instants do.
  lemma TextOrderIsTimeOrder(a: Civil, b: Civil)
    requires Valid(a) && Valid(b)
    ensures TextLess(Encode(a), Encode(b)) <==> ToSeconds(a) < ToSeconds(b)
    ensures Encode(a) == Encode(b) <==> ToSeconds(a) == ToSeconds(b)
  {
    hide Encode, ParseStored, ToSeconds, TextLess;
    TextOrderIsCivilOrder(a, b);
    if CivilLess(a, b) { CivilLessIsEarlier(a, b); }
    if CivilLess(b, a) { CivilLessIsEarlier(b, a); }
    ParseEncode(a);
    ParseEncode(b);
  }

  // ---- from instants -------------------------------------------------------------------------------------

  function YearOf(days: int, y: int): (c: (int, int))
    requires 0 <= days && 1 <= y <= 10000 && DaysBeforeYear(y) + days < DaysBeforeYear(10000)
    ensures y <= c.0 <= 9999 && 0 <= c.1 < DaysInYear(c.0)
    ensures DaysBeforeYear(c.0) + c.1 == DaysBeforeYear(y) + days
    decreases 10000 - y
  {
    if y == 10000 then (9999, 0)
    else if days < DaysInYear(y) then (y, days)
    else YearOf(days - DaysInYear(y), y + 1)
  }

  function MonthOf(y: int, days: int, m: int): (c: (int, int))
    requires 0 <= days && 1 <= m <= 13 && DaysBeforeMonth(y, m) + days < DaysBeforeMonth(y, 13)
    ensures m <= c.0 <= 12 && 0 <= c.1 < DaysInMonth(y, c.0)
    ensures DaysBeforeMonth(y, c.0) + c.1 == DaysBeforeMonth(y, m) + days
    decreases 13 - m
  {
    if m == 13 then (12, 0)
    else if days < DaysInMonth(y, m) then (m, days)
    else MonthOf(y, days - DaysInMonth(y, m), m + 1)
  }

  // The civil time of an instant, given in seconds since the beginning of year 1.
  function FromSeconds(n: int): (c: Civil)
    requires 0 <= n < DaysBeforeYear(10000) * 86400
    ensures Valid(c) && ToSeconds(c) == n
  {
    var rest := n % 86400;
    var (y, inYear) := YearOf(n / 86400, 1);
    MonthsFillYear(y);
    var (m, inMonth) := MonthOf(y, inYear, 1);
    Civil(y, m, inMonth + 1, rest / 3600, rest % 3600 / 60, rest % 60)
  }

  predicate InRange(micros: int) { 0 <= micros / 1000000 < DaysBeforeYear(10000) * 86400 }

  // now_iso and iso_from_offset on an instant with microseconds.
  function Text(micros: int): string
    requires InRange(micros)
  {
    Encode(FromSeconds(micros / 1000000))
  }

  // For all instants of years 1 to 9999: the stored texts compare as the instants do at second precision, and
  // so does the epoch a guard in the program computes by parsing them.
  lemma GuardsAgree(until: int, now: int)
    requires InRange(until) && InRange(now)
    ensures TextLess(Text(now), Text(until)) <==> now / 1000000 < until / 1000000
    ensures ParseStored(Text(until)).Some? && ParseStored(Text(now)).Some?
    ensures TextLess(Text(now), Text(until)) <==>
        ToSeconds(ParseStored(Text(until)).value) > ToSeconds(ParseStored(Text(now)).value)
  {
    var a, b := FromSeconds(now / 1000000), FromSeconds(until / 1000000);
    TextOrderIsTimeOrder(a, b);
    ParseEncode(a);
    ParseEncode(b);
  }
}
