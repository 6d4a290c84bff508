/** The front half of `searchPerson`: optional criteria become the clauses of
    a conjunction (`bool.must`). */
module Query {
  import opened Js
  import Entity

  /** The criteria of a search; each one may be left out. */
  datatype Filter = Filter(fName: Option<string>, lName: Option<string>, age: Option<Number>, minCars: Option<Number>)

  datatype Field = FName | LName

  /** One clause of the conjunction: a text match on a name field, an inclusive
      range on `dateOfBirth`, or a lower bound on `countOfOwnedCars`. */
  datatype Clause =
    | Match(field: Field, text: string)
    | DateRange(gte: string, lte: string)
    | CarsAtLeast(min: int)

  /** The lower bound `${year}-01-01` of the age clause. */
  function YearStart(year: int): string {
    DecimalString(year) + "-01-01"
  }

  /** The upper bound `${year}-12-31` of the age clause. */
  function YearEnd(year: int): string {
    DecimalString(year) + "-12-31"
  }

  /** Position of a clause kind in the order the builder emits them. */
  function Rank(c: Clause): nat {
    match c
    case Match(FName, _) => 0
    case Match(LName, _) => 1
    case DateRange(_, _) => 2
    case CarsAtLeast(_) => 3
  }

  /** How many criteria of the filter are truthy. */
  function CriteriaCount(f: Filter): nat {
    (if TruthyString(f.fName) then 1 else 0) + (if TruthyString(f.lName) then 1 else 0)
    + (if TruthyNumber(f.age) then 1 else 0) + (if TruthyNumber(f.minCars) then 1 else 0)
  }

  /** The age clause for a person `age` years old in `currentYear`: born in the
      calendar year `currentYear - age`. */
  function AgeClause(age: int, currentYear: int): (c: Clause)
    ensures c.DateRange?
    ensures Entity.IsDateString(c.gte) && Entity.IsDateString(c.lte) <==> 1000 <= currentYear - age <= 9999
    ensures 1000 <= currentYear - age <= 9999 ==>
              Entity.ParseCalendarDate(c.gte) == Some(Entity.CalendarDate(currentYear - age, 1, 1))
              && Entity.ParseCalendarDate(c.lte) == Some(Entity.CalendarDate(currentYear - age, 12, 31))
  {
    var year := currentYear - age;
    AgeBoundsAreDates(year);
    DateRange(YearStart(year), YearEnd(year))
  }

  /** Whether a clause is the one its kind's criterion asks for: a name match
      carries a truthy name, a date range is the age clause of a truthy age, a
      car bound carries a truthy minimum. */
  predicate FromCriterion(f: Filter, currentYear: int, c: Clause) {
    match c
    case Match(FName, text) => TruthyString(f.fName) && text == f.fName.value
    case Match(LName, text) => TruthyString(f.lName) && text == f.lName.value
    case DateRange(_, _) => TruthyNumber(f.age) && c == AgeClause(f.age.value.value, currentYear)
    case CarsAtLeast(min) => TruthyNumber(f.minCars) && min == f.minCars.value.value
  }

  /** The clauses of the query; an empty list matches every record. */
  function BuildQuery(f: Filter, currentYear: int): (q: seq<Clause>)
    ensures |q| == CriteriaCount(f)
    ensures forall i, j :: 0 <= i < j < |q| ==> Rank(q[i]) < Rank(q[j])
    ensures forall i :: 0 <= i < |q| ==> FromCriterion(f, currentYear, q[i])
    ensures TruthyString(f.fName) ==> Match(FName, f.fName.value) in q
    ensures TruthyString(f.lName) ==> Match(LName, f.lName.value) in q
    ensures TruthyNumber(f.age) ==> AgeClause(f.age.value.value, currentYear) in q
    ensures TruthyNumber(f.minCars) ==> CarsAtLeast(f.minCars.value.value) in q
  {
    (if TruthyString(f.fName) then [Match(FName, f.fName.value)] else [])
    + (if TruthyString(f.lName) then [Match(LName, f.lName.value)] else [])
    + (if TruthyNumber(f.age) then [AgeClause(f.age.value.value, currentYear)] else [])
    + (if TruthyNumber(f.minCars) then [CarsAtLeast(f.minCars.value.value)] else [])
  }

  /** A filter with no truthy criterion builds the empty conjunction, and only such a filter does. */
  lemma EmptyFilterMatchesAll(f: Filter, currentYear: int)
    ensures BuildQuery(f, currentYear) == [] <==>
              !TruthyString(f.fName) && !TruthyString(f.lName) && !TruthyNumber(f.age) && !TruthyNumber(f.minCars)
  {
  }

  /** The bounds of the age clause are date strings exactly when the birth year
      has four digits, and then they are 1 January and 31 December of that year. */
  lemma AgeBoundsAreDates(year: int)
    ensures Entity.IsDateString(YearStart(year)) <==> 1000 <= year <= 9999
    ensures Entity.IsDateString(YearEnd(year)) <==> 1000 <= year <= 9999
    ensures 1000 <= year <= 9999 ==>
              Entity.ParseCalendarDate(YearStart(year)) == Some(Entity.CalendarDate(year, 1, 1))
              && Entity.ParseCalendarDate(YearEnd(year)) == Some(Entity.CalendarDate(year, 12, 31))
  {
    YearBoundParse(year, "-01-01", 1, 1);
    YearBoundParse(year, "-12-31", 12, 31);
  }

  lemma YearBoundParse(year: int, suffix: string, month: nat, day: nat)
    requires (suffix == "-01-01" && month == 1 && day == 1) || (suffix == "-12-31" && month == 12 && day == 31)
    ensures Entity.IsDateString(DecimalString(year) + suffix) <==> 1000 <= year <= 9999
    ensures 1000 <= year <= 9999 ==>
              Entity.ParseCalendarDate(DecimalString(year) + suffix) == Some(Entity.CalendarDate(year, month, day))
  {
    var text := DecimalString(year);
    var s := text + suffix;
    if year < 0 {
      assert s[0] == '-';
      assert !AllDigits(s[..4]) by { assert |s| < 4 || s[..4][0] == '-'; }
    } else {
      NatStringLength(year, 3);
      NatStringLength(year, 4);
      assert Pow10(3) == 1000 && Pow10(4) == 10000;
      if 1000 <= year <= 9999 {
        assert |text| == 4;
        assert s[..4] == text;
        DigitsValueOfNatString(year);
        assert s[5..7] == suffix[1..3] && s[8..] == suffix[4..];
        TwoDigitsValue(suffix[1..3]);
        TwoDigitsValue(suffix[4..]);
      } else {
        assert |s| != 10;
      }
    }
  }
}
