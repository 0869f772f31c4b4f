/** Small value types shared by the whole model: optional values, results with
    an error, and Ruby's notion of a blank string. */
module Common {

  /** Ruby's nil-or-value: None stands for nil. */
  datatype Option<+T> = None | Some(value: T)

  /** A computation that either yields a value or raises the error it carries. */
  datatype Result<+T, +E> = Success(value: T) | Failure(error: E)

  /** The characters of the Unicode White_Space property, which is what the
      `[[:space:]]` class in Active Support's `String#blank?` matches. */
  predicate IsSpace(c: char)
  {
    || ('\U{0009}' <= c <= '\U{000D}')
    || c == ' '
    || c == '\U{0085}'
    || c == '\U{00A0}'
    || c == '\U{1680}'
    || ('\U{2000}' <= c <= '\U{200A}')
    || c == '\U{2028}'
    || c == '\U{2029}'
    || c == '\U{202F}'
    || c == '\U{205F}'
    || c == '\U{3000}'
  }

  /** `blank?` on a String: empty or nothing but white space. */
  predicate BlankText(s: string)
  {
    forall i :: 0 <= i < |s| ==> IsSpace(s[i])
  }

  /** The message of Active Model's presence validator. */
  const BlankMessage := "can't be blank"

  /** `blank?` on a String attribute that may be nil. */
  predicate Blank(v: Option<string>)
  {
    v.None? || BlankText(v.value)
  }

  /** `[a, b, c].select(&:present?)` on String attributes: the present values,
      in their original order. */
  function PresentValues(fields: seq<Option<string>>): (r: seq<string>)
    ensures |r| <= |fields|
    ensures forall i :: 0 <= i < |r| ==> !BlankText(r[i])
  {
    if fields == [] then []
    else if Blank(fields[0]) then PresentValues(fields[1..])
    else [fields[0].value] + PresentValues(fields[1..])
  }

  /** Number of present values among fields. */
  function CountPresent(fields: seq<Option<string>>): nat
  {
    if fields == [] then 0
    else (if Blank(fields[0]) then 0 else 1) + CountPresent(fields[1..])
  }

  /** Selecting from a concatenation is concatenating the selections: together
      with PresentValuesOne, this says exactly which values are kept and that
      their order is the order of fields. */
  lemma {:induction false} PresentValuesConcat(a: seq<Option<string>>, b: seq<Option<string>>)
    ensures PresentValues(a + b) == PresentValues(a) + PresentValues(b)
  {
    if a == [] {
      assert a + b == b;
    } else {
      assert (a + b)[1..] == a[1..] + b;
      PresentValuesConcat(a[1..], b);
    }
  }

  /** A single field is kept exactly when it is present. */
  lemma PresentValuesOne(x: Option<string>)
    ensures PresentValues([x]) == if Blank(x) then [] else [x.value]
  {
    assert [x][1..] == [];
  }

  /** One value is selected per present field. */
  lemma {:induction false} PresentValuesCount(fields: seq<Option<string>>)
    ensures |PresentValues(fields)| == CountPresent(fields)
  {
    if fields != [] {
      PresentValuesCount(fields[1..]);
    }
  }
}
