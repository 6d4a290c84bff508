/** The records of person.entity.ts and the validation constraints their
    decorators declare. */
module Entity {
  import opened Js

  /** A person as the create route receives it. */
  datatype Person = Person(fName: string, lName: string, dateOfBirth: string, countOfOwnedCars: int)

  /** The body of the create-contact route. */
  datatype CreateHubSpotContactDto = CreateHubSpotContactDto(fName: string, lName: string, email: string, dateOfBirth: string)

  /** A calendar date as written in ISO 8601. */
  datatype CalendarDate = CalendarDate(year: nat, month: nat, day: nat)

  /** Reads the calendar-date form `YYYY-MM-DD` of ISO 8601: four year digits,
      a month 01..12 and a day 01..31 (the day is not checked against the month). */
  function ParseCalendarDate(s: string): (r: Option<CalendarDate>)
    ensures r.Some? ==> |s| == 10 && s[4] == '-' && s[7] == '-'
    ensures r.Some? ==> r.value.year < 10000 && 1 <= r.value.month <= 12 && 1 <= r.value.day <= 31
  {
    if |s| == 10 && AllDigits(s[..4]) && s[4] == '-' && AllDigits(s[5..7]) && s[7] == '-' && AllDigits(s[8..]) then
      var year, month, day := DigitsValue(s[..4]), DigitsValue(s[5..7]), DigitsValue(s[8..]);
      DigitsBound(s[..4]);
      if 1 <= month <= 12 && 1 <= day <= 31 then Some(CalendarDate(year, month, day)) else None
    else None
  }

  lemma {:induction false} DigitsBound(s: string)
    requires AllDigits(s)
    ensures DigitsValue(s) < Pow10(|s|)
    decreases |s|
  {
    if s != [] {
      DigitsBound(s[..|s| - 1]);
    }
  }

  /** `@IsDateString()`: the string is an ISO 8601 calendar date. */
  predicate IsDateString(s: string)
    ensures IsDateString(s) ==> |s| == 10 && s[4] == '-' && s[7] == '-'
  {
    ParseCalendarDate(s).Some?
  }

  /** The pieces of `s` between occurrences of `sep`, as `String.split` gives them. */
  function Split(s: string, sep: char): (parts: seq<string>)
    ensures |parts| >= 1
    ensures forall i :: 0 <= i < |parts| ==> sep !in parts[i]
    decreases |s|
  {
    if s == [] then [""]
    else
      var rest := Split(s[1..], sep);
      if s[0] == sep then [""] + rest else [[s[0]] + rest[0]] + rest[1..]
  }

  /** A domain name: dot-separated non-empty labels ending in a top-level
      domain of at least two characters. */
  predicate IsDomain(d: string) {
    var labels := Split(d, '.');
    |labels| >= 2 && (forall i :: 0 <= i < |labels| ==> labels[i] != "") && |labels[|labels| - 1]| >= 2
  }

  /** `@IsEmail()`: one `@` between a non-empty local part and a domain name. */
  predicate IsEmail(s: string)
    ensures IsEmail(s) ==> exists i :: 0 < i < |s| - 1 && s[i] == '@' && '@' !in s[..i] && '@' !in s[i + 1..]
  {
    var parts := Split(s, '@');
    if |parts| == 2 then
      SplitInTwo(s, '@');
      var i := |parts[0]|;
      assert IsDomain(parts[1]) ==> parts[1] != "";
      assert s[..i] == parts[0] && s[i + 1..] == parts[1];
      parts[0] != "" && IsDomain(parts[1])
    else false
  }

  /** What the validation pipe demands of a `Person`: non-empty names, a date
      string for the date of birth and a car count that is an integer of at least 0. */
  predicate ValidPerson(p: Person)
    ensures ValidPerson(p) ==> |p.dateOfBirth| == 10 && p.countOfOwnedCars >= 0
  {
    && p.fName != ""
    && p.lName != ""
    && IsDateString(p.dateOfBirth)
    && p.countOfOwnedCars >= 0
  }

  /** What the validation pipe demands of a `CreateHubSpotContactDto`. */
  predicate ValidContactDto(d: CreateHubSpotContactDto)
    ensures ValidContactDto(d) ==> '@' in d.email && |d.dateOfBirth| == 10
  {
    IsEmail(d.email) && IsDateString(d.dateOfBirth)
  }

  /** Splitting and joining again with the separator gives the string back. */
  lemma {:induction false} SplitJoin(s: string, sep: char)
    ensures Join(Split(s, sep), sep) == s
    decreases |s|
  {
    if s != [] {
      SplitJoin(s[1..], sep);
      var rest := Split(s[1..], sep);
      if s[0] != sep {
        JoinCons(rest, sep, s[0]);
      }
    }
  }

  function Join(parts: seq<string>, sep: char): string
    requires |parts| >= 1
    decreases |parts|
  {
    if |parts| == 1 then parts[0] else parts[0] + [sep] + Join(parts[1..], sep)
  }

  lemma JoinCons(parts: seq<string>, sep: char, c: char)
    requires |parts| >= 1
    ensures Join([[c] + parts[0]] + parts[1..], sep) == [c] + Join(parts, sep)
  {
    var moved := [[c] + parts[0]] + parts[1..];
    if |parts| > 1 {
      assert moved[1..] == parts[1..];
    }
  }

  /** A string that splits into two pieces is the first piece, the separator and the second. */
  lemma SplitInTwo(s: string, sep: char)
    requires |Split(s, sep)| == 2
    ensures var parts := Split(s, sep);
      s == parts[0] + [sep] + parts[1] && s[|parts[0]|] == sep
      && s[..|parts[0]|] == parts[0] && s[|parts[0]| + 1..] == parts[1]
  {
    SplitJoin(s, sep);
  }
}
