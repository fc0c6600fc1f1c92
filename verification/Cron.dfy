/**
 Cron expressions compiled to systemd calendars.

 Cron's meaning is that of the INPUT FILES section of crontab in POSIX.1-2017, with 7 as a second name
 of Sunday; the calendar's meaning is that of the section CALENDAR EVENTS of systemd.time(7).
 */
module Cron {
  import opened Results
  import opened Identifiers
  import opened Text

  datatype CronError = NotFiveFields | UnsupportedField | OutOfRange | DayAndWeekday

  // ----- numbers -----

  predicate AllDigits(s: string) {
    forall i :: 0 <= i < |s| ==> IsDigit(s[i])
  }

  function Value(s: string): nat
    requires AllDigits(s)
  {
    if s == "" then 0 else 10 * Value(s[..|s| - 1]) + (s[|s| - 1] as int - '0' as int)
  }

  /** `parse::<u8>`: an optional plus sign, at least one digit, at most 255. */
  function ParseU8(s: string): Option<nat> {
    var digits := if |s| > 1 && s[0] == '+' then s[1..] else s;
    if digits == "" || !AllDigits(digits) || Value(digits) > 255 then None else Some(Value(digits))
  }

  /** `to_string` */
  function Decimal(n: nat): string {
    if n < 10 then ["0123456789"[n]] else Decimal(n / 10) + ["0123456789"[n % 10]]
  }

  lemma {:induction false} DecimalRoundTrip(n: nat)
    ensures Decimal(n) != "" && AllDigits(Decimal(n)) && Value(Decimal(n)) == n
  {
    if n < 10 {
      assert Decimal(n)[..0] == "";
    } else {
      DecimalRoundTrip(n / 10);
      var s := Decimal(n);
      assert s[..|s| - 1] == Decimal(n / 10);
    }
  }

  // ----- the compiler -----

  /** `split_whitespace` */
  function SplitWhitespace(s: string): seq<string> {
    SplitFrom(s, "")
  }

  function SplitFrom(s: string, word: string): seq<string> {
    if s == "" then if word == "" then [] else [word]
    else if IsWhitespace(s[0]) then (if word == "" then [] else [word]) + SplitFrom(s[1..], "")
    else SplitFrom(s[1..], word + [s[0]])
  }

  function CronField(value: string, minimum: nat, maximum: nat): Result<string, CronError> {
    if value == "*" then Ok("*")
    else
      var number := ParseU8(value);
      if number.None? then Err(UnsupportedField)
      else if !(minimum <= number.value <= maximum) then Err(OutOfRange)
      else Ok(Decimal(number.value))
  }

  function WeekdayName(weekday: string): string {
    if weekday == "0" || weekday == "7" then "Sun"
    else if weekday == "1" then "Mon"
    else if weekday == "2" then "Tue"
    else if weekday == "3" then "Wed"
    else if weekday == "4" then "Thu"
    else if weekday == "5" then "Fri"
    else "Sat"
  }

  function CronToCalendar(expression: string): Result<string, CronError> {
    var fields := SplitWhitespace(expression);
    if |fields| != 5 then Err(NotFiveFields)
    else
      var minute := CronField(fields[0], 0, 59);
      if minute.Err? then minute else
      var hour := CronField(fields[1], 0, 23);
      if hour.Err? then hour else
      var day := CronField(fields[2], 1, 31);
      if day.Err? then day else
      var month := CronField(fields[3], 1, 12);
      if month.Err? then month else
      var weekday := CronField(fields[4], 0, 7);
      if weekday.Err? then weekday else
      if day.value != "*" && weekday.value != "*" then Err(DayAndWeekday)
      else
        var date := RenderDate(month.value, day.value, hour.value, minute.value);
        if weekday.value == "*" then Ok(date) else Ok(WeekdayName(weekday.value) + " " + date)
  }

  function RenderDate(month: string, day: string, hour: string, minute: string): string {
    "*-" + month + "-" + day + " " + hour + ":" + minute + ":00"
  }

  /** A number is read with or without a sign, if it fits into eight bits. */
  lemma ParseRoundTrip(n: nat)
    ensures ParseU8(Decimal(n)) == (if n <= 255 then Some(n) else None)
    ensures ParseU8("+" + Decimal(n)) == ParseU8(Decimal(n))
  {
    DecimalRoundTrip(n);
    var s := Decimal(n);
    assert ("+" + s)[1..] == s;
    assert IsDigit(s[0]);
  }

  /** Words, each after a gap. */
  function Spaced(gaps: seq<string>, words: seq<string>): string
    requires |gaps| == |words|
  {
    if words == [] then "" else gaps[0] + words[0] + Spaced(gaps[1..], words[1..])
  }

  predicate IsWord(word: string) {
    word != "" && forall i :: 0 <= i < |word| ==> !IsWhitespace(word[i])
  }

  lemma {:induction false} WordIsRead(word: string, rest: string, before: string)
    requires forall i :: 0 <= i < |word| ==> !IsWhitespace(word[i])
    ensures SplitFrom(word + rest, before) == SplitFrom(rest, before + word)
    decreases |word|
  {
    if word == "" {
      assert word + rest == rest && before + word == before;
    } else {
      assert (word + rest)[1..] == word[1..] + rest;
      WordIsRead(word[1..], rest, before + [word[0]]);
      assert before + [word[0]] + word[1..] == before + word;
    }
  }

  lemma {:induction false} GapIsSkipped(gap: string, rest: string)
    requires IsBlank(gap)
    ensures SplitFrom(gap + rest, "") == SplitFrom(rest, "")
    decreases |gap|
  {
    if gap == "" {
      assert gap + rest == rest;
    } else {
      assert (gap + rest)[1..] == gap[1..] + rest;
      GapIsSkipped(gap[1..], rest);
    }
  }

  lemma GapEndsWord(gap: string, rest: string, word: string)
    requires IsBlank(gap) && gap != "" && word != ""
    ensures SplitFrom(gap + rest, word) == [word] + SplitFrom(rest, "")
  {
    assert (gap + rest)[1..] == gap[1..] + rest;
    GapIsSkipped(gap[1..], rest);
  }

  lemma RestEndsWord(gaps: seq<string>, words: seq<string>, last: string, word: string)
    requires |gaps| == |words| && IsBlank(last) && word != ""
    requires words != [] ==> IsBlank(gaps[0]) && gaps[0] != ""
    ensures var rest := Spaced(gaps, words) + last; SplitFrom(rest, word) == [word] + SplitFrom(rest, "")
  {
    if words != [] {
      var tail := words[0] + Spaced(gaps[1..], words[1..]) + last;
      Regroup(gaps[0], words[0], Spaced(gaps[1..], words[1..]), last);
      hide Spaced, SplitFrom;
      GapEndsWord(gaps[0], tail, word);
      GapIsSkipped(gaps[0], tail);
    } else {
      assert Spaced(gaps, words) + last == last && last + "" == last;
      if last != "" {
        GapEndsWord(last, "", word);
        GapIsSkipped(last, "");
      }
    }
  }

  lemma Regroup(a: string, b: string, c: string, d: string)
    ensures a + b + c + d == a + (b + c + d)
  {
  }

  /** The fields of an expression are its words, whatever white space stands before, between and after them. */
  lemma {:induction false} FieldsAreWords(gaps: seq<string>, words: seq<string>, last: string)
    requires |gaps| == |words| && IsBlank(last)
    requires forall i :: 0 <= i < |words| ==> IsWord(words[i]) && IsBlank(gaps[i]) && (i > 0 ==> gaps[i] != "")
    ensures SplitWhitespace(Spaced(gaps, words) + last) == words
    decreases |words|
  {
    if words == [] {
      assert Spaced(gaps, words) + last == last + "";
      GapIsSkipped(last, "");
    } else {
      var rest := Spaced(gaps[1..], words[1..]) + last;
      assert Spaced(gaps, words) + last == gaps[0] + (words[0] + rest);
      GapIsSkipped(gaps[0], words[0] + rest);
      WordIsRead(words[0], rest, "");
      assert "" + words[0] == words[0];
      FieldsAreWords(gaps[1..], words[1..], last);
      RestEndsWord(gaps[1..], words[1..], last, words[0]);
      hide SplitFrom, Spaced;
    }
  }

  // ----- what a cron expression means -----

  datatype Instant = Instant(month: nat, day: nat, weekday: nat, hour: nat, minute: nat, second: nat) {
    /** Weekdays count from Sunday, which is 0. */
    predicate Valid() {
      1 <= month <= 12 && 1 <= day <= 31 && weekday < 7 && hour < 24 && minute < 60 && second < 60
    }
  }

  predicate Selects(field: string, n: nat) {
    field == "*" || ParseU8(field) == Some(n)
  }

  predicate SelectsWeekday(field: string, weekday: nat) {
    Selects(field, weekday) || (weekday == 0 && Selects(field, 7))
  }

  /** Day of month and day of week both have to match, unless both are restricted: then one suffices. */
  predicate CronMatches(expression: string, t: Instant) {
    var fields := SplitWhitespace(expression);
    && |fields| == 5
    && Selects(fields[0], t.minute) && Selects(fields[1], t.hour) && Selects(fields[3], t.month)
    && if fields[2] != "*" && fields[4] != "*" then Selects(fields[2], t.day) || SelectsWeekday(fields[4], t.weekday)
       else Selects(fields[2], t.day) && SelectsWeekday(fields[4], t.weekday)
  }

  predicate FieldInRange(field: string, minimum: nat, maximum: nat) {
    field == "*" || (ParseU8(field).Some? && minimum <= ParseU8(field).value <= maximum)
  }

  predicate Accepted(expression: string) {
    var fields := SplitWhitespace(expression);
    && |fields| == 5
    && FieldInRange(fields[0], 0, 59) && FieldInRange(fields[1], 0, 23) && FieldInRange(fields[2], 1, 31)
    && FieldInRange(fields[3], 1, 12) && FieldInRange(fields[4], 0, 7)
    && (fields[2] == "*" || fields[4] == "*")
  }

  // ----- what a calendar means -----

  /** `None` stands for any value. */
  datatype Calendar = Calendar(
    weekday: Option<nat>, month: Option<nat>, day: Option<nat>, hour: Option<nat>, minute: Option<nat>,
      second: Option<nat>)

  function ReadComponent(s: string): Option<Option<nat>> {
    if s == "*" then Some(None)
    else if s != "" && AllDigits(s) then Some(Some(Value(s)))
    else None
  }

  const WEEKDAYS := ["Sun", "Mon", "Tue", "Wed", "Thu", "Fri", "Sat"]

  function ReadWeekday(s: string): Option<Option<nat>> {
    if exists i :: 0 <= i < 7 && WEEKDAYS[i] == s then
      WeekdaysDistinct();
      var i :| 0 <= i < 7 && WEEKDAYS[i] == s;
      Some(Some(i))
    else None
  }

  lemma WeekdaysDistinct()
    ensures forall i, j :: 0 <= i < j < 7 ==> WEEKDAYS[i] != WEEKDAYS[j]
  {
    assert WEEKDAYS[0][0] == 'S' && WEEKDAYS[0][1] == 'u';
    assert WEEKDAYS[1][0] == 'M';
    assert WEEKDAYS[2][0] == 'T' && WEEKDAYS[2][1] == 'u';
    assert WEEKDAYS[3][0] == 'W';
    assert WEEKDAYS[4][0] == 'T' && WEEKDAYS[4][1] == 'h';
    assert WEEKDAYS[5][0] == 'F';
    assert WEEKDAYS[6][0] == 'S' && WEEKDAYS[6][1] == 'a';
  }

  /** `[weekday ]year-month-day hour:minute:second`, each component a number or an asterisk, the year an asterisk. */
  function ReadCalendar(s: string): Option<Calendar> {
    var parts := Split(s, ' ');
    if |parts| == 2 then ReadParts(None, parts[0], parts[1])
    else if |parts| == 3 && ReadWeekday(parts[0]).Some? then ReadParts(ReadWeekday(parts[0]).value, parts[1], parts[2])
    else None
  }

  function ReadParts(weekday: Option<nat>, date: string, time: string): Option<Calendar> {
    var ds, ts := Split(date, '-'), Split(time, ':');
    if |ds| != 3 || |ts| != 3 || ds[0] != "*" then None
    else
      var month, day := ReadComponent(ds[1]), ReadComponent(ds[2]);
      var hour, minute, second := ReadComponent(ts[0]), ReadComponent(ts[1]), ReadComponent(ts[2]);
      if month.None? || day.None? || hour.None? || minute.None? || second.None? then None
      else Some(Calendar(weekday, month.value, day.value, hour.value, minute.value, second.value))
  }

  predicate Admits(component: Option<nat>, n: nat) {
    component.None? || component.value == n
  }

  predicate Fires(c: Calendar, t: Instant) {
    && Admits(c.weekday, t.weekday) && Admits(c.month, t.month) && Admits(c.day, t.day)
    && Admits(c.hour, t.hour) && Admits(c.minute, t.minute) && Admits(c.second, t.second)
  }

  // ----- the compiler preserves meaning -----

  /** A component of the output: an asterisk or a decimal number. */
  predicate IsComponent(s: string) {
    s == "*" || (s != "" && AllDigits(s))
  }

  /** The compiled field is read back as the number the cron field selects. */
  lemma FieldMeaning(field: string, minimum: nat, maximum: nat)
    ensures CronField(field, minimum, maximum).Ok? <==> FieldInRange(field, minimum, maximum)
    ensures CronField(field, minimum, maximum).Ok? ==>
      var s := CronField(field, minimum, maximum).value;
      && IsComponent(s) && (s == "*" <==> field == "*")
      && ReadComponent(s).Some?
      && (ReadComponent(s).value.Some? ==> ReadComponent(s).value == ParseU8(field))
      && forall n :: Admits(ReadComponent(s).value, n) <==> Selects(field, n)
  {
    if field != "*" && ParseU8(field).Some? {
      DecimalRoundTrip(ParseU8(field).value);
      DigitsAreNotStar(Decimal(ParseU8(field).value));
    }
  }

  lemma DigitsAreNotStar(s: string)
    requires s != "" && AllDigits(s)
    ensures s != "*"
  {
    assert IsDigit(s[0]);
  }

  lemma ComponentHasNo(s: string, c: char)
    requires IsComponent(s) && !IsDigit(c) && c != '*'
    ensures !Contains(s, c)
  {
  }

  /** Three texts joined by a character that none of the first two contains, nor the last. */
  lemma SplitThree(a: string, b: string, d: string, c: char)
    requires !Contains(a, c) && !Contains(b, c) && !Contains(d, c)
    ensures Split(a + [c] + b + [c] + d, c) == [a, b, d]
  {
    hide Contains, Split;
    assert a + [c] + b + [c] + d == a + [c] + (b + [c] + d);
    SplitHead(a, b + [c] + d, c);
    SplitHead(b, d, c);
    SplitWhole(d, c);
  }

  lemma DateRoundTrip(month: string, day: string, hour: string, minute: string)
    requires IsComponent(month) && IsComponent(day) && IsComponent(hour) && IsComponent(minute)
    ensures Split(RenderDate(month, day, hour, minute), ' ') == ["*-" + month + "-" + day, hour + ":" + minute + ":00"]
    ensures Split("*-" + month + "-" + day, '-') == ["*", month, day]
    ensures Split(hour + ":" + minute + ":00", ':') == [hour, minute, "00"]
  {
    var date, time := "*-" + month + "-" + day, hour + ":" + minute + ":00";
    DateHasNoSpace(month, day);
    TimeHasNoSpace(hour, minute);
    ComponentHasNo(month, '-');
    ComponentHasNo(day, '-');
    ComponentHasNo(hour, ':');
    ComponentHasNo(minute, ':');
    assert !Contains("*", '-') && !Contains("00", ':');
    hide Contains, Split, IsComponent;
    assert RenderDate(month, day, hour, minute) == date + [' '] + time;
    SplitHead(date, time, ' ');
    SplitWhole(time, ' ');
    assert date == "*" + ['-'] + month + ['-'] + day;
    SplitThree("*", month, day, '-');
    assert time == hour + [':'] + minute + [':'] + "00";
    SplitThree(hour, minute, "00", ':');
  }

  lemma DateHasNoSpace(month: string, day: string)
    requires IsComponent(month) && IsComponent(day)
    ensures !Contains("*-" + month + "-" + day, ' ')
  {
  }

  lemma TimeHasNoSpace(hour: string, minute: string)
    requires IsComponent(hour) && IsComponent(minute)
    ensures !Contains(hour + ":" + minute + ":00", ' ')
  {
  }

  /** The day name printed for a weekday field is read back as that weekday, 7 as Sunday. */
  lemma WeekdayMeaning(field: string)
    requires field != "*" && FieldInRange(field, 0, 7)
    ensures var name := WeekdayName(Decimal(ParseU8(field).value));
      && !Contains(name, ' ')
      && ReadWeekday(name) == Some(Some(ParseU8(field).value % 7))
  {
    var n := ParseU8(field).value;
    WeekdaysDistinct();
    DecimalDigit(n);
    assert WEEKDAYS[n % 7] == WeekdayName(Decimal(n));
  }

  lemma DecimalDigit(n: nat)
    requires n < 8
    ensures Decimal(n) == ["0", "1", "2", "3", "4", "5", "6", "7"][n]
    ensures var names := ["0", "1", "2", "3", "4", "5", "6", "7"];
      forall i, j :: 0 <= i < j < 8 ==> names[i] != names[j]
  {
    var names := ["0", "1", "2", "3", "4", "5", "6", "7"];
    assert forall i :: 0 <= i < 8 ==> names[i] == ["0123456789"[i]];
  }

  /** The zero seconds of the output. */
  lemma ZeroSeconds()
    ensures ReadComponent("00") == Some(Some(0))
  {
    assert "00"[..1] == "0" && "0"[..0] == "";
    assert AllDigits("00");
    assert Value("0") == 0;
  }

  /**
   An expression is accepted exactly when its five fields are in range and day and weekday are not
   both restricted.
   */
  lemma AcceptedExactly(expression: string)
    ensures CronToCalendar(expression).Ok? <==> Accepted(expression)
  {
    var fields := SplitWhitespace(expression);
    if |fields| == 5 {
      FieldMeaning(fields[0], 0, 59);
      FieldMeaning(fields[1], 0, 23);
      FieldMeaning(fields[2], 1, 31);
      FieldMeaning(fields[3], 1, 12);
      FieldMeaning(fields[4], 0, 7);
    }
  }

  /** The calendar of an accepted expression, read back. */
  lemma CalendarOf(expression: string) returns (c: Calendar)
    requires Accepted(expression)
    ensures CronToCalendar(expression).Ok? && ReadCalendar(CronToCalendar(expression).value) == Some(c)
    ensures var fields := SplitWhitespace(expression);
      && (forall n :: Admits(c.minute, n) <==> Selects(fields[0], n))
      && (forall n :: Admits(c.hour, n) <==> Selects(fields[1], n))
      && (forall n :: Admits(c.day, n) <==> Selects(fields[2], n))
      && (forall n :: Admits(c.month, n) <==> Selects(fields[3], n))
      && c.weekday == (if fields[4] == "*" then None else Some(ParseU8(fields[4]).value % 7))
      && c.second == Some(0)
  {
    hide Selects, Admits, SplitFrom, ReadComponent, ReadWeekday, WeekdayName, Split, ParseU8, Decimal;
    var fields := SplitWhitespace(expression);
    AcceptedExactly(expression);
    FieldMeaning(fields[0], 0, 59);
    FieldMeaning(fields[1], 0, 23);
    FieldMeaning(fields[2], 1, 31);
    FieldMeaning(fields[3], 1, 12);
    FieldMeaning(fields[4], 0, 7);
    var minute, hour := CronField(fields[0], 0, 59).value, CronField(fields[1], 0, 23).value;
    var day, month := CronField(fields[2], 1, 31).value, CronField(fields[3], 1, 12).value;
    var date := RenderDate(month, day, hour, minute);
    DateRoundTrip(month, day, hour, minute);
    ZeroSeconds();
    if fields[4] == "*" {
      c := ReadCalendar(date).value;
    } else {
      WeekdayMeaning(fields[4]);
      var name := WeekdayName(CronField(fields[4], 0, 7).value);
      SplitHead(name, date, ' ');
      assert name + " " + date == name + [' '] + date;
      c := ReadCalendar(name + " " + date).value;
    }
  }

  /** The calendar of an accepted expression fires at second 0 of exactly the minutes the expression matches. */
  lemma CronMeaningPreserved(expression: string, t: Instant)
    requires CronToCalendar(expression).Ok? && t.Valid()
    ensures var c := ReadCalendar(CronToCalendar(expression).value);
      c.Some? && (Fires(c.value, t) <==> t.second == 0 && CronMatches(expression, t))
  {
    AcceptedExactly(expression);
    hide SplitFrom, CronToCalendar, ReadCalendar;
    var c := CalendarOf(expression);
    var fields := SplitWhitespace(expression);
    assert Admits(c.weekday, t.weekday) <==> SelectsWeekday(fields[4], t.weekday);
  }
}
