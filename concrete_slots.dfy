/** The slot value type and the one slot operation the core relies on.
    `ConcreteSlot` itself is not part of this model: a slot is an abstract
    value, and `ConcreteSlot.parse` is passed in as a partial function that
    answers None where the Ruby raises ArgumentError. */
module ConcreteSlots {
  import opened Common

  /** A concrete visiting slot (a start and an end time). */
  type Slot(==)

  /** `ConcreteSlot.parse`: None for text it rejects. */
  type SlotParser = string -> Option<Slot>

  /** `texts.map { |s| ConcreteSlot.parse(s) }`: the slots in order, or the
      first text whose parse raises, which aborts the whole map. */
  function ParseAll(texts: seq<string>, parse: SlotParser): (r: Result<seq<Slot>, string>)
    ensures r.Success? <==> forall i :: 0 <= i < |texts| ==> parse(texts[i]).Some?
    ensures r.Success? ==>
              && |r.value| == |texts|
              && forall i :: 0 <= i < |texts| ==> parse(texts[i]) == Some(r.value[i])
    ensures r.Failure? ==>
              exists k :: && 0 <= k < |texts| && texts[k] == r.error && parse(texts[k]).None?
                          && forall j :: 0 <= j < k ==> parse(texts[j]).Some?
  {
    if texts == [] then Success([])
    else
      match parse(texts[0])
      case None => Failure(texts[0])
      case Some(slot) =>
        var rest := ParseAll(texts[1..], parse);
        if rest.Failure? then
          assert forall j :: 1 <= j < |texts| ==> texts[j] == texts[1..][j - 1];
          Failure(rest.error)
        else Success([slot] + rest.value)
  }
}
