/** The optional date-of-birth validation: a blank value passes, any other
    value must be a Date between the age bounds. */
module Dobs {
  import opened Dates

  /** The validation message, "Must be less than #{MAX_AGE} years ago". */
  const OutOfRangeMessage := "Must be less than 120 years ago"

  /** The errors on `date_of_birth`: none when blank (`allow_blank`), the
      message when the value is not in the range of today. */
  function DobErrors(value: DateAttribute, today: Date): (r: seq<string>)
    ensures BlankAttribute(value) ==> r == []
    ensures r == [] || r == [OutOfRangeMessage]
  {
    if BlankAttribute(value) then []
    else if value.DateValue? && DateOfBirthInRange(value.date, today) then []
    else [OutOfRangeMessage]
  }

  /** A value passes exactly when it is blank or a Date whose year lies
      between today's year less MAX_AGE and today's year. */
  lemma DobValidIff(value: DateAttribute, today: Date)
    requires value.DateValue? ==> ValidDate(value.date)
    ensures DobErrors(value, today) == [] <==>
              || BlankAttribute(value)
              || (value.DateValue? && today.year - MaxAge <= value.date.year <= today.year)
  {
    if value.DateValue? {
      InRangeIffYear(value.date, today);
    }
  }
}
