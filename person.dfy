/** The validations a person (a prisoner or a visitor) carries: both names
    present and a date of birth that is a Date between the age bounds. */
module Persons {
  import opened Common
  import opened Dates

  datatype PersonAttribute = FirstName | LastName | DateOfBirth

  datatype PersonError = PersonError(attribute: PersonAttribute, message: string)

  /** The message of Active Model's inclusion validator. */
  const InclusionMessage := "is not included in the list"

  datatype Person = Person(firstName: Option<string>, lastName: Option<string>, dateOfBirthValue: DateAttribute)

  /** The `date_of_birth` reader: the stored value when it is a Date, nil
      for anything else. */
  function DateOfBirthOf(p: Person): (r: Option<Date>)
    ensures r.Some? <==> p.dateOfBirthValue.DateValue?
    ensures r.Some? ==> r.value == p.dateOfBirthValue.date
  {
    match p.dateOfBirthValue
    case DateValue(d) => Some(d)
    case _ => None
  }

  /** `age`: nil without a date of birth, otherwise what the age calculator
      (not part of this model, passed in) makes of it. */
  function Age(p: Person, ageOf: Date -> int): (r: Option<int>)
    ensures r.None? <==> DateOfBirthOf(p).None?
    ensures r.Some? ==> r.value == ageOf(p.dateOfBirthValue.date)
  {
    match DateOfBirthOf(p)
    case None => None
    case Some(d) => Some(ageOf(d))
  }

  /** The errors of the validations, in declaration order: presence of each
      name, then presence and inclusion of the date of birth as the reader
      returns it (nil is not in the range either). */
  function Errors(p: Person, today: Date): (r: seq<PersonError>)
    ensures |r| <= 4
    ensures PersonError(FirstName, BlankMessage) in r <==> Blank(p.firstName)
    ensures PersonError(LastName, BlankMessage) in r <==> Blank(p.lastName)
    ensures PersonError(DateOfBirth, BlankMessage) in r <==> !p.dateOfBirthValue.DateValue?
    ensures PersonError(DateOfBirth, InclusionMessage) in r <==>
              !(p.dateOfBirthValue.DateValue? && DateOfBirthInRange(p.dateOfBirthValue.date, today))
    ensures forall e :: e in r ==> e.message in {BlankMessage, InclusionMessage}
  {
    var dob := DateOfBirthOf(p);
    (if Blank(p.firstName) then [PersonError(FirstName, BlankMessage)] else [])
    + (if Blank(p.lastName) then [PersonError(LastName, BlankMessage)] else [])
    + (if dob.None? then [PersonError(DateOfBirth, BlankMessage)] else [])
    + (if dob.None? || !DateOfBirthInRange(dob.value, today) then [PersonError(DateOfBirth, InclusionMessage)] else [])
  }

  /** A person is valid exactly when both names are present and the date of
      birth is a Date whose year lies between today's year less MAX_AGE and
      today's year. */
  lemma ValidIff(p: Person, today: Date)
    requires p.dateOfBirthValue.DateValue? ==> ValidDate(p.dateOfBirthValue.date)
    ensures Errors(p, today) == [] <==>
              && !Blank(p.firstName) && !Blank(p.lastName)
              && p.dateOfBirthValue.DateValue?
              && today.year - MaxAge <= p.dateOfBirthValue.date.year <= today.year
  {
    if p.dateOfBirthValue.DateValue? {
      InRangeIffYear(p.dateOfBirthValue.date, today);
    }
  }

  /** Each blank name gets the presence error. */
  lemma NamesRequired(p: Person, today: Date)
    ensures Blank(p.firstName) ==> PersonError(FirstName, BlankMessage) in Errors(p, today)
    ensures Blank(p.lastName) ==> PersonError(LastName, BlankMessage) in Errors(p, today)
  {
  }

  /** A value that is not a Date reads as nil, so it fails presence and
      inclusion both. */
  lemma NonDateFailsPresence(p: Person, today: Date, ageOf: Date -> int)
    requires !p.dateOfBirthValue.DateValue?
    ensures PersonError(DateOfBirth, BlankMessage) in Errors(p, today)
    ensures PersonError(DateOfBirth, InclusionMessage) in Errors(p, today)
    ensures Age(p, ageOf).None?
  {
  }
}
