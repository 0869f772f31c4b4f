/** The booking request the wizard submits: one parameters hash assembled
    from the prisoner, visitors and slots steps, sent once to the booking API,
    whose Visit is handed back unchanged. */
module BookingRequests {
  import opened Common
  import opened JsonValues
  import opened Visits
  import opened SlotsSteps

  /** The prisoner step: `prison_id` and the other attributes of its hash. */
  datatype PrisonerStep = PrisonerStep(prisonId: Json, details: Params)

  /** `prisoner_step.to_hash`. */
  function PrisonerHash(step: PrisonerStep): (r: Params)
    ensures "prison_id" in r && r["prison_id"] == step.prisonId
    ensures r.Keys == step.details.Keys + {"prison_id"}
    ensures forall k :: k in step.details && k != "prison_id" ==> r[k] == step.details[k]
  {
    step.details["prison_id" := step.prisonId]
  }

  /** A visitor of the visitors step. Its class is not part of this model;
      its `to_hash` reaches the model as a function. */
  type StepVisitor
  type VisitorHash = StepVisitor -> Params

  /** The visitors step: its visitors and the contact details. */
  datatype VisitorsStep = VisitorsStep(visitors: seq<StepVisitor>, emailAddress: Json, phoneNo: Json)

  /** `visitors_step.visitors.map(&:to_hash)`. */
  function VisitorHashes(visitors: seq<StepVisitor>, toHash: VisitorHash): (r: seq<Json>)
    ensures |r| == |visitors|
    ensures forall i :: 0 <= i < |visitors| ==> r[i] == JObject(toHash(visitors[i]))
  {
    if visitors == [] then []
    else [JObject(toHash(visitors[0]))] + VisitorHashes(visitors[1..], toHash)
  }

  const PayloadKeys: set<string> :=
    {"prison_id", "prisoner", "visitors", "contact_email_address", "contact_phone_no", "slot_options", "locale"}

  /** The `params` hash of `create!`. */
  function Payload(prisoner: PrisonerStep, visitors: VisitorsStep, option0: Option<string>,
                   option1: Option<string>, option2: Option<string>, locale: string, toHash: VisitorHash)
    : (r: Params)
    ensures r.Keys == PayloadKeys
    ensures r["prison_id"] == prisoner.prisonId
    ensures r["prisoner"].JObject? && "prison_id" !in r["prisoner"].members
    ensures r["visitors"].JArray? && |r["visitors"].items| == |visitors.visitors|
    ensures r["contact_email_address"] == visitors.emailAddress
    ensures r["contact_phone_no"] == visitors.phoneNo
    ensures r["locale"] == JString(locale)
    ensures r["slot_options"].JArray? && |r["slot_options"].items| == OptionCount
  {
    map[
      "prison_id" := prisoner.prisonId,
      "prisoner" := JObject(PrisonerHash(prisoner) - {"prison_id"}),
      "visitors" := JArray(VisitorHashes(visitors.visitors, toHash)),
      "contact_email_address" := visitors.emailAddress,
      "contact_phone_no" := visitors.phoneNo,
      "slot_options" := JArray([OptionalString(option0), OptionalString(option1), OptionalString(option2)]),
      "locale" := JString(locale)
    ]
  }

  /** The prisoner's hash is recovered from the payload by putting the
      top-level `prison_id` back into the `prisoner` sub-hash: the sub-hash
      holds every other attribute unchanged. */
  lemma PayloadKeepsPrisoner(prisoner: PrisonerStep, visitors: VisitorsStep, option0: Option<string>,
                             option1: Option<string>, option2: Option<string>, locale: string, toHash: VisitorHash)
    ensures var p := Payload(prisoner, visitors, option0, option1, option2, locale, toHash);
            p["prisoner"].members["prison_id" := p["prison_id"]] == PrisonerHash(prisoner)
  {
    var p := Payload(prisoner, visitors, option0, option1, option2, locale, toHash);
    var h := PrisonerHash(prisoner);
    assert p["prisoner"].members["prison_id" := p["prison_id"]].Keys == h.Keys;
  }

  /** The three slot options are read back from the payload in order,
      blank or nil ones included. */
  lemma PayloadKeepsSlotOptions(prisoner: PrisonerStep, visitors: VisitorsStep, option0: Option<string>,
                                option1: Option<string>, option2: Option<string>, locale: string, toHash: VisitorHash)
    ensures var items := Payload(prisoner, visitors, option0, option1, option2, locale, toHash)["slot_options"].items;
            && ReadOptionalString(items[0]) == option0
            && ReadOptionalString(items[1]) == option1
            && ReadOptionalString(items[2]) == option2
  {
    OptionalStringRoundTrip(option0);
    OptionalStringRoundTrip(option1);
    OptionalStringRoundTrip(option2);
  }

  /** Visitor i of the payload is the hash of visitor i of the step. */
  lemma PayloadKeepsVisitors(prisoner: PrisonerStep, visitors: VisitorsStep, option0: Option<string>,
                             option1: Option<string>, option2: Option<string>, locale: string,
                             toHash: VisitorHash, i: nat)
    requires i < |visitors.visitors|
    ensures Payload(prisoner, visitors, option0, option1, option2, locale, toHash)["visitors"].items[i]
              == JObject(toHash(visitors.visitors[i]))
  {
  }

  /** Why `request_booking` raised: the client's error for a response
      whose status is not 200 (or a failed connection), the `KeyError` of
      `fetch('visit')` on a response without a visit, or the error of
      `Visit.new` on the visit the service returned. */
  datatype BookingError = RequestFailed(message: string) | NoVisitInResponse | InvalidVisit(error: DecodeError)

  /** The booking API of the configuration: every `request_booking` call it
      has received, and what the service's answer to a request turns into,
      a Visit or the error `request_booking` raises. */
  class BookingApi {
    var requests: seq<Params>
    const respond: Params -> Result<Visit, BookingError>

    constructor (respond: Params -> Result<Visit, BookingError>)
      ensures requests == [] && this.respond == respond
    {
      requests := [];
      this.respond := respond;
    }

    /** `request_booking(params)`: the request is sent whether or not its
        answer then decodes to a Visit. */
    method RequestBooking(params: Params) returns (outcome: Result<Visit, BookingError>)
      modifies this
      ensures requests == old(requests) + [params]
      ensures outcome == respond(params)
    {
      requests := requests + [params];
      outcome := respond(params);
    }
  }

  /** `create!`: builds the payload, submits it once and returns the Visit,
      or lets the error of `request_booking` through unchanged. */
  method Create(prisoner: PrisonerStep, visitors: VisitorsStep, slots: SlotsStep, locale: string,
                toHash: VisitorHash, api: BookingApi)
    returns (outcome: Result<Visit, BookingError>)
    modifies api
    ensures api.requests == old(api.requests) +
              [Payload(prisoner, visitors, slots.option0, slots.option1, slots.option2, locale, toHash)]
    ensures outcome == api.respond(Payload(prisoner, visitors, slots.option0, slots.option1, slots.option2, locale, toHash))
  {
    var params := Payload(prisoner, visitors, slots.option0, slots.option1, slots.option2, locale, toHash);
    outcome := api.RequestBooking(params);
  }
}
