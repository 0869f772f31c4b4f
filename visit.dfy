/** A visit as the booking service reports it: the strict decoding of its
    processing state, the coercion of its slots and visitors, and the split of
    its visitors into those the service allowed and those it rejected. */
module Visits {
  import opened Common
  import opened Dates
  import opened JsonValues
  import opened ConcreteSlots

  /** The `processing_state` symbols of `VALID_STATES`. */
  datatype ProcessingState = Requested | Withdrawn | Booked | Cancelled | Rejected

  /** `VALID_STATES`, in declaration order. */
  const ValidStates: seq<ProcessingState> := [Requested, Withdrawn, Booked, Cancelled, Rejected]

  /** `Symbol#to_s` of a state. */
  function StateName(s: ProcessingState): string
  {
    match s
    case Requested => "requested"
    case Withdrawn => "withdrawn"
    case Booked => "booked"
    case Cancelled => "cancelled"
    case Rejected => "rejected"
  }

  const InvalidStatePrefix := "Invalid processing_state for visit: "

  /** `states.find { |s| s.to_s == name }`. */
  function FindState(states: seq<ProcessingState>, name: string): (r: Option<ProcessingState>)
    ensures r.Some? ==> r.value in states && StateName(r.value) == name
    ensures r.None? <==> forall i :: 0 <= i < |states| ==> StateName(states[i]) != name
  {
    if states == [] then None
    else if StateName(states[0]) == name then Some(states[0])
    else
      var r := FindState(states[1..], name);
      assert forall i :: 1 <= i < |states| ==> states[i] == states[1..][i - 1];
      r
  }

  /** The `processing_state` coercer: the state whose name is the given
      text, or the failure the coercer raises: a present value has no
      default. */
  function CoerceProcessingState(state: string): (r: Result<ProcessingState, string>)
    ensures r.Success? <==> state in {"requested", "withdrawn", "booked", "cancelled", "rejected"}
    ensures r.Success? ==> StateName(r.value) == state
    ensures r.Failure? ==> r.error == InvalidStatePrefix + state
  {
    match FindState(ValidStates, state)
    case Some(s) => Success(s)
    case None =>
      assert StateName(ValidStates[0]) == "requested" && StateName(ValidStates[1]) == "withdrawn";
      assert StateName(ValidStates[2]) == "booked" && StateName(ValidStates[3]) == "cancelled";
      assert StateName(ValidStates[4]) == "rejected";
      Failure(InvalidStatePrefix + state)
  }

  /** Every state decodes from its own name. */
  lemma CoerceStateName(s: ProcessingState)
    ensures CoerceProcessingState(StateName(s)) == Success(s)
  {
  }

  /** The `slot_granted` coercer: nil stays nil, anything else is parsed. */
  function CoerceSlotGranted(slot: Option<string>, parse: SlotParser): (r: Result<Option<Slot>, string>)
    ensures slot.None? ==> r == Success(None)
    ensures slot.Some? ==> (r.Success? <==> parse(slot.value).Some?)
    ensures slot.Some? && r.Success? ==> r.value == parse(slot.value)
    ensures r.Failure? ==> slot == Some(r.error)
  {
    match slot
    case None => Success(None)
    case Some(text) =>
      match parse(text)
      case None => Failure(text)
      case Some(s) => Success(Some(s))
  }

  /** A visitor of a visit. `allowed` is the service's verdict on the visitor. */
  datatype Visitor = Visitor(firstName: string, lastName: string, dateOfBirth: Option<Date>, allowed: bool)

  /** `Visitor.new`: the Visitor class is not part of this model and reaches
      it as a function from the visitor's JSON hash. */
  type VisitorBuilder = Json -> Visitor

  /** The `visitors` coercer: `visitors.map { |v| Visitor.new(v) }`. */
  function CoerceVisitors(visitors: seq<Json>, build: VisitorBuilder): (r: seq<Visitor>)
    ensures |r| == |visitors|
    ensures forall i :: 0 <= i < |visitors| ==> r[i] == build(visitors[i])
  {
    if visitors == [] then []
    else [build(visitors[0])] + CoerceVisitors(visitors[1..], build)
  }

  /** The attributes of a visit hash. Virtus sets only the keys the hash
      holds, so a key may be missing: `processingState` and the two flags are
      None when their key is absent; an absent `slot_granted` reads as nil
      like a nil one, an absent `slots` or `visitors` as an empty list, and
      an absent plain attribute as `JNull`. */
  datatype RawVisit = RawVisit(
    id: Json,
    slotGranted: Option<string>,
    contactEmailAddress: Json,
    slots: seq<string>,
    prisonId: Json,
    processingState: Option<string>,
    visitors: seq<Json>,
    canCancel: Option<bool>,
    canWithdraw: Option<bool>)

  datatype Visit = Visit(
    id: Json,
    slotGranted: Option<Slot>,
    contactEmailAddress: Json,
    slots: seq<Slot>,
    prisonId: Json,
    processingState: Option<ProcessingState>,
    visitors: seq<Visitor>,
    canCancel: Option<bool>,
    canWithdraw: Option<bool>)

  /** Why `Visit.new` raised: a slot text that does not parse, or the message
      of the `processing_state` coercer. */
  datatype DecodeError = UnparseableSlot(text: string) | InvalidState(message: string)

  /** The `processing_state` attribute: nil when the key is absent, the
      coerced state when it is present. */
  function CoerceState(state: Option<string>): (r: Result<Option<ProcessingState>, string>)
    ensures state.None? ==> r == Success(None)
    ensures state.Some? ==> match CoerceProcessingState(state.value)
                            case Success(s) => r == Success(Some(s))
                            case Failure(e) => r == Failure(e)
  {
    match state
    case None => Success(None)
    case Some(text) =>
      match CoerceProcessingState(text)
      case Success(s) => Success(Some(s))
      case Failure(e) => Failure(e)
  }

  /** `Visit.new(hash)`: the coercer of every attribute the hash holds is
      applied; any failure aborts. An absent `processing_state` is never
      coerced and stays nil. */
  function Decode(raw: RawVisit, parse: SlotParser, build: VisitorBuilder): (r: Result<Visit, DecodeError>)
    ensures r.Success? <==>
              && (raw.slotGranted.Some? ==> parse(raw.slotGranted.value).Some?)
              && (forall i :: 0 <= i < |raw.slots| ==> parse(raw.slots[i]).Some?)
              && (raw.processingState.Some? ==>
                    raw.processingState.value in {"requested", "withdrawn", "booked", "cancelled", "rejected"})
    ensures r.Success? ==>
              && r.value.id == raw.id && r.value.prisonId == raw.prisonId
              && r.value.contactEmailAddress == raw.contactEmailAddress
              && (raw.slotGranted.None? <==> r.value.slotGranted.None?)
              && (raw.slotGranted.Some? ==> r.value.slotGranted == parse(raw.slotGranted.value))
              && |r.value.slots| == |raw.slots|
              && (forall i :: 0 <= i < |raw.slots| ==> parse(raw.slots[i]) == Some(r.value.slots[i]))
              && (r.value.processingState.None? <==> raw.processingState.None?)
              && (raw.processingState.Some? ==> StateName(r.value.processingState.value) == raw.processingState.value)
              && |r.value.visitors| == |raw.visitors|
              && (forall i :: 0 <= i < |raw.visitors| ==> r.value.visitors[i] == build(raw.visitors[i]))
              && CanCancel(r.value) == raw.canCancel
              && CanWithdraw(r.value) == raw.canWithdraw
    ensures r.Failure? && r.error.InvalidState? ==>
              raw.processingState.Some? && r.error.message == InvalidStatePrefix + raw.processingState.value
  {
    match CoerceSlotGranted(raw.slotGranted, parse)
    case Failure(text) => Failure(UnparseableSlot(text))
    case Success(granted) =>
      match ParseAll(raw.slots, parse)
      case Failure(text) => Failure(UnparseableSlot(text))
      case Success(slots) =>
        match CoerceState(raw.processingState)
        case Failure(message) => Failure(InvalidState(message))
        case Success(state) =>
          Success(Visit(raw.id, granted, raw.contactEmailAddress, slots, raw.prisonId, state,
                        CoerceVisitors(raw.visitors, build), raw.canCancel, raw.canWithdraw))
  }

  /** `allowed_visitors`: `visitors.select(&:allowed)`. */
  function AllowedVisitors(visitors: seq<Visitor>): (r: seq<Visitor>)
    ensures forall i :: 0 <= i < |r| ==> r[i].allowed
  {
    if visitors == [] then []
    else (if visitors[0].allowed then [visitors[0]] else []) + AllowedVisitors(visitors[1..])
  }

  /** `rejected_visitors`: `visitors.reject(&:allowed)`. */
  function RejectedVisitors(visitors: seq<Visitor>): (r: seq<Visitor>)
    ensures forall i :: 0 <= i < |r| ==> !r[i].allowed
  {
    if visitors == [] then []
    else (if visitors[0].allowed then [] else [visitors[0]]) + RejectedVisitors(visitors[1..])
  }

  /** The allowed and the rejected visitors partition the visitors: each
      visitor is in exactly one of them, so the two counts sum to the total. */
  lemma {:induction false} VisitorsPartition(visitors: seq<Visitor>)
    ensures multiset(AllowedVisitors(visitors)) + multiset(RejectedVisitors(visitors)) == multiset(visitors)
    ensures |AllowedVisitors(visitors)| + |RejectedVisitors(visitors)| == |visitors|
  {
    if visitors != [] {
      VisitorsPartition(visitors[1..]);
      assert visitors == [visitors[0]] + visitors[1..];
    }
  }

  /** Both selections keep the visitors' order: selecting from a
      concatenation concatenates the selections. */
  lemma {:induction false} VisitorsOrderKept(a: seq<Visitor>, b: seq<Visitor>)
    ensures AllowedVisitors(a + b) == AllowedVisitors(a) + AllowedVisitors(b)
    ensures RejectedVisitors(a + b) == RejectedVisitors(a) + RejectedVisitors(b)
  {
    if a == [] {
      assert a + b == b;
    } else {
      assert (a + b)[1..] == a[1..] + b;
      VisitorsOrderKept(a[1..], b);
    }
  }

  /** A visitor is allowed exactly when it is among the allowed visitors. */
  lemma {:induction false} AllowedMembership(visitors: seq<Visitor>, v: Visitor)
    requires v in visitors
    ensures v in AllowedVisitors(visitors) <==> v.allowed
    ensures v in RejectedVisitors(visitors) <==> !v.allowed
  {
    if visitors[0] != v {
      AllowedMembership(visitors[1..], v);
    }
  }

  /** `can_cancel?`: the service's flag, as stored, nil when it was not sent. */
  function CanCancel(visit: Visit): (r: Option<bool>)
    ensures r == visit.canCancel
  {
    visit.canCancel
  }

  /** `can_withdraw?`: the service's flag, as stored, nil when it was not sent. */
  function CanWithdraw(visit: Visit): (r: Option<bool>)
    ensures r == visit.canWithdraw
  {
    visit.canWithdraw
  }

  /** A hash with only `id`, `prison_id` and one parseable slot decodes:
      the slot is coerced, and the state and both flags stay nil. */
  lemma PartialHashDecodes(text: string, parse: SlotParser, build: VisitorBuilder)
    requires parse(text).Some?
    ensures var r := Decode(RawVisit(JString("1"), None, JNull, [text], JString("2"), None, [], None, None), parse, build);
            && r.Success?
            && r.value.id == JString("1") && r.value.prisonId == JString("2")
            && r.value.slots == [parse(text).value]
            && r.value.processingState.None?
            && CanCancel(r.value).None? && CanWithdraw(r.value).None?
  {
  }
}
