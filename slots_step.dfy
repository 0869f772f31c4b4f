/** The slot-selection step of the booking wizard: up to three slot options
    typed in by the visitor, which of them are filled, which field to fill
    next, and the validation that every filled option names a parseable,
    bookable slot. */
module SlotsSteps {
  import opened Common
  import opened ConcreteSlots

  /** Number of option fields: `option_0`, `option_1`, `option_2`. */
  const OptionCount := 3

  const ParseableMessage := "is not a parseable slot"
  const BookableMessage := "is not a bookable slot"
  /** `slot_constraints.bookable_slot?`: the booking constraints are not part
      of this model and reach it as a predicate. */
  type Bookability = Slot -> bool

  /** One entry of `record.errors`: the option field (0, 1 or 2) and the message. */
  datatype FieldError = FieldError(field: nat, message: string)

  /** The name `next_option_to_fill` gives option field i. */
  function FieldName(i: nat): string
    requires i < OptionCount
  {
    if i == 0 then "0" else if i == 1 then "1" else "2"
  }

  /** The body of the `validates_each` block for one option holding value:
      blank values are skipped (`allow_blank`); a value that does not parse
      gets the parse error, and a parsed slot the constraints reject gets the
      bookability error. */
  function OptionErrors(field: nat, value: Option<string>, parse: SlotParser, bookable: Bookability)
    : (r: seq<FieldError>)
    ensures Blank(value) ==> r == []
    ensures |r| <= 1 && forall e :: e in r ==> e.field == field
    ensures forall e :: e in r ==> e.message in {ParseableMessage, BookableMessage}
    ensures !Blank(value) && parse(value.value).None? ==> r == [FieldError(field, ParseableMessage)]
    ensures !Blank(value) && parse(value.value).Some? ==>
              (r == [FieldError(field, BookableMessage)] <==> !bookable(parse(value.value).value))
    ensures !Blank(value) && parse(value.value).Some? ==>
              (r == [] <==> bookable(parse(value.value).value))
  {
    if Blank(value) then []
    else
      var slot := parse(value.value);
      var parseErrors := if slot.None? then [FieldError(field, ParseableMessage)] else [];
      var bookErrors := if slot.Some? && !bookable(slot.value) then [FieldError(field, BookableMessage)] else [];
      parseErrors + bookErrors
  }

  /** The errors the `validates_each` block adds for the first n of fields,
      visited in the order the attributes are listed. */
  function EachOptionErrors(fields: seq<Option<string>>, n: nat, parse: SlotParser, bookable: Bookability)
    : (r: seq<FieldError>)
    requires n <= |fields|
    ensures |r| <= n
    ensures forall e :: e in r ==> e.field < n
    ensures forall e :: e in r ==> e.message in {ParseableMessage, BookableMessage}
  {
    if n == 0 then []
    else EachOptionErrors(fields, n - 1, parse, bookable) + OptionErrors(n - 1, fields[n - 1], parse, bookable)
  }

  /** The presence validation of `option_0`. */
  function PresenceErrors(option0: Option<string>): (r: seq<FieldError>)
    ensures r != [] <==> Blank(option0)
    ensures Blank(option0) ==> r == [FieldError(0, BlankMessage)]
    ensures !Blank(option0) ==> r == []
  {
    if Blank(option0) then [FieldError(0, BlankMessage)] else []
  }

  class SlotsStep {
    var option0: Option<string>
    var option1: Option<string>
    var option2: Option<string>
    /** `attr_accessor :review_slot`: the option being revisited, if any. */
    var reviewSlot: Option<string>
    /** `record.errors`, in the order the validations add them. */
    var errors: seq<FieldError>

    constructor ()
      ensures option0 == None && option1 == None && option2 == None
      ensures reviewSlot == None && errors == []
    {
      option0, option1, option2 := None, None, None;
      reviewSlot := None;
      errors := [];
    }

    /** Option attribute i. */
    function Field(i: nat): Option<string>
      requires i < OptionCount
      reads this
    {
      if i == 0 then option0 else if i == 1 then option1 else option2
    }

    /** The three option attributes, in the order they are declared. */
    function Fields(): (r: seq<Option<string>>)
      reads this
      ensures |r| == OptionCount && forall i :: 0 <= i < OptionCount ==> r[i] == Field(i)
    {
      [option0, option1, option2]
    }

    /** `options`: the present values among the three attributes, in order. */
    function Options(): (r: seq<string>)
      reads this
      ensures |r| <= OptionCount
      ensures |r| == CountPresent(Fields())
      ensures r == (if Blank(option0) then [] else [option0.value])
                 + (if Blank(option1) then [] else [option1.value])
                 + (if Blank(option2) then [] else [option2.value])
    {
      var fs := Fields();
      PresentValuesCount(fs);
      assert fs == [option0] + [option1] + [option2];
      PresentValuesConcat([option0] + [option1], [option2]);
      PresentValuesConcat([option0], [option1]);
      PresentValuesOne(option0);
      PresentValuesOne(option1);
      PresentValuesOne(option2);
      PresentValues(fs)
    }

    /** `options_available?`: another option may still be added. */
    predicate OptionsAvailable()
      reads this
      ensures OptionsAvailable() <==> Blank(option0) || Blank(option1) || Blank(option2)
    {
      |Options()| < OptionCount
    }

    /** `additional_options?`: more than one option has been filled. */
    predicate AdditionalOptions()
      reads this
      ensures AdditionalOptions() <==>
                || (!Blank(option0) && !Blank(option1))
                || (!Blank(option0) && !Blank(option2))
                || (!Blank(option1) && !Blank(option2))
    {
      |Options()| > 1
    }

    /** `slots`: each option parsed, in the order of `options`. */
    function Slots(parse: SlotParser): (r: Result<seq<Slot>, string>)
      reads this
      ensures r.Success? <==> forall i :: 0 <= i < |Options()| ==> parse(Options()[i]).Some?
      ensures r.Success? ==>
                && |r.value| == |Options()|
                && forall i :: 0 <= i < |Options()| ==> parse(Options()[i]) == Some(r.value[i])
    {
      ParseAll(Options(), parse)
    }

    /** `next_option_to_fill`: the review slot when one is set, else the name
        of the first blank option field, else nil. */
    function NextOptionToFill(): (r: Option<string>)
      reads this
      ensures reviewSlot.Some? ==> r == reviewSlot
      ensures reviewSlot.None? ==> (r.None? <==> forall i :: 0 <= i < OptionCount ==> !Blank(Field(i)))
      ensures reviewSlot.None? && r.Some? ==>
                exists k :: && 0 <= k < OptionCount && r.value == FieldName(k) && Blank(Field(k))
                            && forall j :: 0 <= j < k ==> !Blank(Field(j))
    {
      if reviewSlot.Some? then reviewSlot
      else if Blank(option0) then assert Blank(Field(0)); Some(FieldName(0))
      else if Blank(option1) then assert !Blank(Field(0)) && Blank(Field(1)); Some(FieldName(1))
      else if Blank(option2) then assert !Blank(Field(0)) && !Blank(Field(1)) && Blank(Field(2)); Some(FieldName(2))
      else None
    }

    /** The errors a validation run leaves in `errors`: the per-option checks
        of `option_0`, `option_1`, `option_2`, then the presence of `option_0`. */
    function ExpectedErrors(parse: SlotParser, bookable: Bookability): (r: seq<FieldError>)
      reads this
      ensures |r| <= OptionCount + 1
      ensures forall e :: e in r ==> e.field < OptionCount
      ensures FieldError(0, BlankMessage) in r <==> Blank(option0)
    {
      EachOptionErrors(Fields(), OptionCount, parse, bookable) + PresenceErrors(option0)
    }

    /** Assigns option attribute i. */
    method SetOption(i: nat, value: Option<string>)
      requires i < OptionCount
      modifies this
      ensures Field(i) == value
      ensures forall j :: 0 <= j < OptionCount && j != i ==> Field(j) == old(Field(j))
      ensures reviewSlot == old(reviewSlot) && errors == old(errors)
    {
      if i == 0 {
        option0 := value;
      } else if i == 1 {
        option1 := value;
      } else {
        option2 := value;
      }
    }

    /** Assigns `review_slot`. */
    method SetReviewSlot(value: Option<string>)
      modifies this
      ensures reviewSlot == value
      ensures Fields() == old(Fields()) && errors == old(errors)
    {
      reviewSlot := value;
    }

    /** `valid?`: clears `errors`, runs the validations in declaration order
        and reports whether none of them added an error. */
    method Validate(parse: SlotParser, bookable: Bookability) returns (valid: bool)
      modifies this`errors
      ensures errors == ExpectedErrors(parse, bookable)
      ensures valid <==> errors == []
    {
      var fields := [option0, option1, option2];
      errors := [];
      for i := 0 to OptionCount
        invariant errors == EachOptionErrors(fields, i, parse, bookable)
      {
        var value := fields[i];
        ghost var before := errors;
        if !Blank(value) {
          var slot := parse(value.value);
          if slot.None? {
            errors := errors + [FieldError(i, ParseableMessage)];
          }
          if slot.Some? && !bookable(slot.value) {
            errors := errors + [FieldError(i, BookableMessage)];
          }
        }
        assert errors == before + OptionErrors(i, value, parse, bookable);
      }
      if Blank(option0) {
        errors := errors + [FieldError(0, BlankMessage)];
      }
      valid := errors == [];
    }
  }

  /** The errors of a validation run that concern field i (< 3) are exactly
      the per-option errors of that field, followed for `option_0` by the
      presence error. */
  lemma {:induction false} ExpectedErrorsOfField(step: SlotsStep, i: nat, parse: SlotParser, bookable: Bookability)
    requires i < OptionCount
    ensures FieldErrorsOf(step.ExpectedErrors(parse, bookable), i) ==
              OptionErrors(i, step.Field(i), parse, bookable) + (if i == 0 then PresenceErrors(step.option0) else [])
  {
    var fs := step.Fields();
    var e1 := EachOptionErrors(fs, 1, parse, bookable);
    var e2 := EachOptionErrors(fs, 2, parse, bookable);
    var o0 := OptionErrors(0, fs[0], parse, bookable);
    var o1 := OptionErrors(1, fs[1], parse, bookable);
    var o2 := OptionErrors(2, fs[2], parse, bookable);
    var p := PresenceErrors(step.option0);
    assert EachOptionErrors(fs, 0, parse, bookable) == [];
    assert e1 == o0;
    assert e2 == o0 + o1;
    assert step.ExpectedErrors(parse, bookable) == o0 + o1 + o2 + p;
    FieldErrorsOfConcat(o0 + o1 + o2, p, i);
    FieldErrorsOfConcat(o0 + o1, o2, i);
    FieldErrorsOfConcat(o0, o1, i);
    if i == 0 {
      FieldErrorsOfSame(o0, 0);
      FieldErrorsOfNone(o1, 0);
      FieldErrorsOfNone(o2, 0);
      FieldErrorsOfSame(p, 0);
    } else if i == 1 {
      FieldErrorsOfNone(o0, 1);
      FieldErrorsOfSame(o1, 1);
      FieldErrorsOfNone(o2, 1);
      FieldErrorsOfNone(p, 1);
    } else {
      FieldErrorsOfNone(o0, 2);
      FieldErrorsOfNone(o1, 2);
      FieldErrorsOfSame(o2, 2);
      FieldErrorsOfNone(p, 2);
    }
  }

  /** A step passes validation exactly when `option_0` is present and every
      present option parses to a slot the constraints accept. */
  lemma ValidIff(step: SlotsStep, parse: SlotParser, bookable: Bookability)
    ensures step.ExpectedErrors(parse, bookable) == [] <==>
              && !Blank(step.option0)
              && forall i :: 0 <= i < OptionCount && !Blank(step.Field(i)) ==>
                   parse(step.Field(i).value).Some? && bookable(parse(step.Field(i).value).value)
  {
    var fs := step.Fields();
    var o0 := OptionErrors(0, fs[0], parse, bookable);
    var o1 := OptionErrors(1, fs[1], parse, bookable);
    var o2 := OptionErrors(2, fs[2], parse, bookable);
    assert EachOptionErrors(fs, 0, parse, bookable) == [];
    assert EachOptionErrors(fs, 1, parse, bookable) == o0;
    assert EachOptionErrors(fs, 2, parse, bookable) == o0 + o1;
    assert step.ExpectedErrors(parse, bookable) == o0 + o1 + o2 + PresenceErrors(step.option0);
  }

  /** With no review slot, a field is still to be filled exactly when another
      option is available. */
  lemma NextOptionWhenAvailable(step: SlotsStep)
    requires step.reviewSlot.None?
    ensures step.NextOptionToFill().Some? <==> step.OptionsAvailable()
  {
  }

  /** The errors in es that concern field i, in order. */
  function FieldErrorsOf(es: seq<FieldError>, i: nat): seq<FieldError>
  {
    if es == [] then []
    else (if es[0].field == i then [es[0]] else []) + FieldErrorsOf(es[1..], i)
  }

  lemma {:induction false} FieldErrorsOfConcat(a: seq<FieldError>, b: seq<FieldError>, i: nat)
    ensures FieldErrorsOf(a + b, i) == FieldErrorsOf(a, i) + FieldErrorsOf(b, i)
  {
    if a == [] {
      assert a + b == b;
    } else {
      var head := if a[0].field == i then [a[0]] else [];
      assert (a + b)[0] == a[0] && (a + b)[1..] == a[1..] + b;
      FieldErrorsOfConcat(a[1..], b, i);
      assert FieldErrorsOf(a + b, i) == head + (FieldErrorsOf(a[1..], i) + FieldErrorsOf(b, i));
      assert FieldErrorsOf(a, i) == head + FieldErrorsOf(a[1..], i);
    }
  }

  lemma {:induction false} FieldErrorsOfSame(es: seq<FieldError>, i: nat)
    requires |es| <= 1 && forall e :: e in es ==> e.field == i
    ensures FieldErrorsOf(es, i) == es
  {
    if es != [] {
      assert es[1..] == [];
    }
  }

  lemma {:induction false} FieldErrorsOfNone(es: seq<FieldError>, i: nat)
    requires |es| <= 1 && forall e :: e in es ==> e.field != i
    ensures FieldErrorsOf(es, i) == []
  {
    if es != [] {
      assert es[1..] == [];
    }
  }
}
