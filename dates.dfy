/** Calendar dates with no calendar: a (year, month, day) triple ordered
    lexicographically, which is how Ruby's Date compares valid dates, and the
    date-of-birth bounds that `Person` and `Dob` share. */
module Dates {
  import opened Common

  datatype Date = Date(year: int, month: int, day: int)

  /** Month and day in range. Days per month are not modelled: every month
      may have 31 days. */
  predicate ValidDate(d: Date)
  {
    1 <= d.month <= 12 && 1 <= d.day <= 31
  }

  /** `a < b` on dates. */
  predicate Before(a: Date, b: Date)
  {
    || a.year < b.year
    || (a.year == b.year && a.month < b.month)
    || (a.year == b.year && a.month == b.month && a.day < b.day)
  }

  /** `a <= b` on dates. */
  predicate AtOrBefore(a: Date, b: Date)
  {
    a == b || Before(a, b)
  }

  /** `(lo..hi).include?(d)`. */
  predicate InRange(d: Date, lo: Date, hi: Date)
  {
    AtOrBefore(lo, d) && AtOrBefore(d, hi)
  }

  /** What a `date_of_birth` attribute can hold: a Date, some other value
      that did not coerce to a Date (here its text), or nil. */
  datatype DateAttribute = DateValue(date: Date) | OtherValue(text: string) | NilValue

  /** `blank?` on the attribute's value: a Date is never blank. */
  predicate BlankAttribute(v: DateAttribute)
  {
    v.NilValue? || (v.OtherValue? && BlankText(v.text))
  }

  /** `MAX_AGE`: the oldest age, in years, a date of birth may give. */
  const MaxAge := 120

  /** `MAX_AGE.years.ago.beginning_of_year.to_date`: the first day of the
      year MAX_AGE years before today's. */
  function MinimumDateOfBirth(today: Date): (r: Date)
    ensures ValidDate(r) && r.year == today.year - MaxAge
    ensures forall d :: ValidDate(d) && d.year == r.year ==> AtOrBefore(r, d)
  {
    Date(today.year - MaxAge, 1, 1)
  }

  /** `Time.zone.today.end_of_year`: the last day of today's year. */
  function MaximumDateOfBirth(today: Date): (r: Date)
    ensures ValidDate(r) && r.year == today.year
    ensures forall d :: ValidDate(d) && d.year == r.year ==> AtOrBefore(d, r)
  {
    Date(today.year, 12, 31)
  }

  /** The date-of-birth range of today: every valid date in it and no other. */
  predicate DateOfBirthInRange(d: Date, today: Date)
  {
    InRange(d, MinimumDateOfBirth(today), MaximumDateOfBirth(today))
  }

  /** The lower bound is strictly before the upper bound. */
  lemma BoundsOrdered(today: Date)
    ensures Before(MinimumDateOfBirth(today), MaximumDateOfBirth(today))
  {
  }

  /** The bounds depend on today's year only. */
  lemma BoundsDependOnYear(today: Date, other: Date)
    requires today.year == other.year
    ensures MinimumDateOfBirth(today) == MinimumDateOfBirth(other)
    ensures MaximumDateOfBirth(today) == MaximumDateOfBirth(other)
  {
  }

  /** The inclusion check is a check on the year: a valid date lies between
      the bounds exactly when its year is between today's year less MAX_AGE
      and today's year, so a later date of the current year is accepted. */
  lemma InRangeIffYear(d: Date, today: Date)
    requires ValidDate(d)
    ensures DateOfBirthInRange(d, today) <==> today.year - MaxAge <= d.year <= today.year
  {
    var lo, hi := MinimumDateOfBirth(today), MaximumDateOfBirth(today);
    if today.year - MaxAge <= d.year <= today.year {
      assert d.year == lo.year ==> AtOrBefore(lo, d);
      assert d.year == hi.year ==> AtOrBefore(d, hi);
    }
  }
}
