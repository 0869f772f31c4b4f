# Prison visit booking: the rules of the booking wizard and its API client

This project is a Dafny model of the small, sequential rules at the core of a
prison-visit booking front end. The front end is a Rails application that books
visit slots through a remote JSON/HTTP booking service. The model covers:

- **Slot selection** (`SlotsSteps`). The wizard step holds three optional slot
  texts and a review slot. From those it derives the filled options, whether
  another option can be added, whether more than one is filled, and which
  field to fill next. Its validation adds a parse or a bookability error for
  each filled option that does not parse or is not bookable, then a presence
  error for the first option when it is blank.
- **Visit decoding** (`Visits`). A visit hash from the service decodes into a
  Visit. A hash may leave keys out: an absent processing state or flag stays
  nil. A processing state that is present decodes strictly: an unknown name
  fails. The granted slot, the requested slots and the visitors are coerced
  element by element. The visitors split into the allowed and the
  rejected ones.
- **Request shaping** (`PrisonVisitsApi`). The client turns a route into
  `/api/<route>.json` and adds the fixed headers and expected status. The
  parameters go in the query string (GET, DELETE) or in a JSON body with its
  content type (POST).
- **Booking payload** (`BookingRequests`). The booking request is built from
  the prisoner, visitors and slots steps and submitted once. What the API
  answers, a Visit or the error `request_booking` raises, is returned
  unchanged.
- **Date-of-birth bounds** (`Dates`, `Persons`, `Dobs`). These are
  1 January of the year 120 years back and 31 December of the current year.
  For a valid date, the inclusion check therefore reduces to a year check.

Collaborators whose code is not part of this model are parameters:
- `ConcreteSlot.parse` is a partial function `string -> Option<Slot>` over an
  abstract `Slot` type. `None` stands for the ArgumentError it raises.
- `bookable_slot?` is a predicate on slots.
- `Visitor.new`, a visitor's `to_hash` and the age calculator are functions.
- The booking API is a class that records every `request_booking` call and
  answers with the Visit the service returns for it, or with the error the
  call raises: a failed request, a response without a visit, or a visit that
  does not decode.
- "Today" is a `Date` argument.

Behaviour of the code worth noting:
- The client in `app/services/prison_visits_api.rb` neither retries nor
  classifies errors. It sets `expects: [200]` and leaves failures to the
  connection, so the model has no retry policy.
- `slot_options` always holds exactly three entries. Blank and nil options are
  sent too, nil as JSON null.
- A nil `date_of_birth` on a person fails the inclusion validation as well as
  presence, because that validator has no `allow_nil`.

Files: `common.dfy`, `concrete_slots.dfy`, `slots_step.dfy`, `visit.dfy`,
`json_values.dfy`, `prison_visits_api.dfy`, `booking_request_creator.dfy`,
`dates.dfy`, `person.dfy`, `dob.dfy`. They form one program: verify them all
together.

## Model

| member | source | states |
|---|---|---|
| Common.PresentValues | app/models/slots_step.rb:45 | `select(&:present?)` keeps no blank or nil value and never more values than there are attributes |
| Common.PresentValuesConcat | app/models/slots_step.rb:44-46 | Selecting the present values of a concatenation concatenates the selections, so `select(&:present?)` keeps the attribute order |
| Common.PresentValuesCount | app/models/slots_step.rb:44-46 | One value is selected per non-blank attribute |
| SlotsSteps.SlotsStep.Options | app/models/slots_step.rb:44-46 | `options` is the non-blank values of `option_0`, `option_1`, `option_2`, in that order; at most three of them |
| SlotsSteps.SlotsStep.OptionsAvailable | app/models/slots_step.rb:33-35 | Holds iff at least one of the three options is blank (fewer than 3 filled) |
| SlotsSteps.SlotsStep.AdditionalOptions | app/models/slots_step.rb:37-39 | Holds iff at least two of the three options are filled |
| SlotsSteps.SlotsStep.Slots | app/models/slots_step.rb:41-43 | Succeeds iff every option parses; then it has the length of `options` and element i is the parse of option i |
| SlotsSteps.SlotsStep.NextOptionToFill | app/models/slots_step.rb:56-61 | A set review slot is returned whatever the options hold; otherwise the name "0"/"1"/"2" of the first blank option, or nil iff all three are filled |
| SlotsSteps.NextOptionWhenAvailable | app/models/slots_step.rb:56-61 | With no review slot, a field to fill exists iff `options_available?` |
| SlotsSteps.OptionErrors | app/models/slots_step.rb:14-25 | A blank option gets no error. An unparseable one gets exactly 'is not a parseable slot' and never the bookability error. A parseable one gets 'is not a bookable slot' iff the constraints reject it, and otherwise no error |
| SlotsSteps.EachOptionErrors | app/models/slots_step.rb:14-25 | The `validates_each` block over the first n options adds at most n errors, each on one of those options and each a parse or a bookability error |
| SlotsSteps.PresenceErrors | app/models/slots_step.rb:29 | A blank `option_0` gets exactly one error, "can't be blank" on field 0; a present one gets none |
| SlotsSteps.SlotsStep.ExpectedErrors | app/models/slots_step.rb:14-29 | A validation run leaves at most four errors, all on the three option fields, and the presence error on `option_0` is among them iff `option_0` is blank |
| SlotsSteps.SlotsStep.Validate | app/models/slots_step.rb:14-29 | Clears `errors`, then appends the per-option errors of options 0, 1, 2 and then the presence error; valid iff no error was added |
| SlotsSteps.ExpectedErrorsOfField | app/models/slots_step.rb:14-29 | The errors recorded for option i are exactly that option's per-option errors, followed for `option_0` by the presence error |
| SlotsSteps.ValidIff | app/models/slots_step.rb:14-29 | The step is valid iff `option_0` is present and every present option parses to a bookable slot |
| SlotsSteps.SlotsStep.SetOption | app/models/slots_step.rb:8-10 | Assigning an option attribute changes that attribute only |
| SlotsSteps.SlotsStep.SetReviewSlot | app/models/slots_step.rb:4 | Assigning `review_slot` changes nothing else |
| SlotsSteps.SlotsStep.constructor | app/models/slots_step.rb:4-10 | A new step has all attributes nil and no errors |
| ConcreteSlots.ParseAll | app/models/visit.rb:10-12 | `slots.map { parse }` succeeds iff every text parses and then keeps length and order; otherwise it fails with the first unparseable text |
| Visits.FindState | app/models/visit.rb:15 | `find` returns a state of the list whose name equals the text, and none iff no such state is listed |
| Visits.CoerceProcessingState | app/models/visit.rb:14-17 | Succeeds exactly for the five names of `VALID_STATES`, with the state of that name; any other text fails with "Invalid processing_state for visit: " followed by the text |
| Visits.CoerceStateName | app/models/visit.rb:26 | Every valid state decodes from its own name |
| Visits.CoerceSlotGranted | app/models/visit.rb:6-8 | nil stays nil; any other value is passed through slot parsing and fails iff that parse fails |
| Visits.CoerceVisitors | app/models/visit.rb:19-21 | One visitor per input hash, same order |
| Visits.CoerceState | app/models/visit.rb:14-17 | An absent `processing_state` stays nil; a present one succeeds with its state exactly when the coercer does, and otherwise fails with the coercer's message |
| Visits.Decode | app/models/visit.rb:1-26 | Decoding succeeds iff the granted slot and every slot parse and the state is absent or valid; then ids are copied, the slots and visitors keep length and order, the state is nil iff its key was absent and otherwise has the given name, and `can_cancel?`/`can_withdraw?` are the service's flags unchanged, nil when not sent. An invalid-state failure carries the coercer's message for the text sent |
| Visits.PartialHashDecodes | spec/models/visit_spec.rb:6-19 | A hash with only `id`, `prison_id` and one parseable slot decodes, with that slot coerced and a nil state and nil flags |
| Visits.CanCancel | app/models/visit.rb:40-42 | `can_cancel?` is the `can_cancel` attribute of the visit, nil when unset; with Decode, the flag the service sent |
| Visits.CanWithdraw | app/models/visit.rb:44-46 | `can_withdraw?` is the `can_withdraw` attribute of the visit, nil when unset; with Decode, the flag the service sent |
| Visits.AllowedVisitors | app/models/visit.rb:32-34 | Holds only visitors whose `allowed` is true |
| Visits.RejectedVisitors | app/models/visit.rb:36-38 | Holds only visitors whose `allowed` is false |
| Visits.VisitorsPartition | app/models/visit.rb:32-38 | Allowed and rejected visitors together are exactly the visitors (as a multiset), and their counts sum to the total |
| Visits.VisitorsOrderKept | app/models/visit.rb:32-38 | Both selections distribute over concatenation, so the visitors' order is kept |
| Visits.AllowedMembership | app/models/visit.rb:32-38 | A visitor is among the allowed iff its flag is true, and among the rejected iff it is false |
| PrisonVisitsApi.FirstSlashAtLineStart | app/services/prison_visits_api.rb:26 | Finds the first position where `^\/` matches (a '/' at the start of the text or after a newline), or none |
| PrisonVisitsApi.StripLeadingSlash | app/services/prison_visits_api.rb:26 | A leading '/' is removed; for a route without newlines, only a leading '/' is removed; at most one character goes |
| PrisonVisitsApi.RequestPath | app/services/prison_visits_api.rb:26-27 | The path is "/api/", then the route with its leading '/' stripped, then ".json", and nothing else |
| PrisonVisitsApi.PathIgnoresLeadingSlash | app/services/prison_visits_api.rb:25-27 | "/x" and "x" give the same path "/api/x.json" |
| PrisonVisitsApi.PathKeepsSecondSlash | app/services/prison_visits_api.rb:26-27 | Only one '/' is stripped: "//x" gives "/api//x.json" |
| PrisonVisitsApi.ParamsOptionsFor | app/services/prison_visits_api.rb:46-58 | Empty params add nothing. GET/DELETE put the params in `query`. POST sends them as the JSON body with `Content-Type: application/json` |
| PrisonVisitsApi.MergeOptions | app/services/prison_visits_api.rb:29-37 | `deep_merge` merges the headers key by key, so both sides' headers are kept |
| PrisonVisitsApi.Request | app/services/prison_visits_api.rb:24-37 | Every request has the called method, the normalised path and `expects: [200]`, and carries `Accept: application/json` and `Accept-Language: en`. With empty params it has no query, no body and only those headers. GET/DELETE with params have the params as query and no body. A POST with params has the body, no query, and exactly the two base headers plus `Content-Type: application/json` |
| PrisonVisitsApi.GetRequest | app/services/prison_visits_api.rb:9-11 | `get` sends a GET to the route's path with no body, and the params as query iff they are non-empty |
| PrisonVisitsApi.PostRequest | app/services/prison_visits_api.rb:13-15 | `post` sends a POST with no query, and the params as body iff they are non-empty |
| PrisonVisitsApi.DeleteRequest | app/services/prison_visits_api.rb:17-19 | `delete` sends a DELETE with no body, and the params as query iff they are non-empty |
| PrisonVisitsApi.DefaultParamsSendNothing | app/services/prison_visits_api.rb:9-19 | `get` and `delete` default to empty params, so they send no query and only the base headers |
| BookingRequests.PrisonerHash | app/services/booking_request_creator.rb:4 | The prisoner step's hash holds `prison_id` with the step's value and every other attribute of the step unchanged, and no other key |
| BookingRequests.VisitorHashes | app/services/booking_request_creator.rb:5 | The visitors are mapped one to one to their hashes, keeping order and count |
| BookingRequests.Payload | app/services/booking_request_creator.rb:7-19 | The payload has exactly its seven keys. `prison_id` is at top level only, absent from `prisoner`. The contact fields and locale are copied verbatim. `slot_options` has exactly three entries, and `visitors` has one entry per visitor |
| BookingRequests.PayloadKeepsPrisoner | app/services/booking_request_creator.rb:4-9 | The `prisoner` sub-hash with the top-level `prison_id` put back is the prisoner step's hash, so it is that hash minus `prison_id` |
| BookingRequests.PayloadKeepsSlotOptions | app/services/booking_request_creator.rb:13-17 | `option_0`, `option_1`, `option_2` are read back from `slot_options` in that order, nil ones included |
| BookingRequests.PayloadKeepsVisitors | app/services/booking_request_creator.rb:5-10 | Entry i of `visitors` is the hash of the step's visitor i |
| BookingRequests.BookingApi.RequestBooking | app/services/prison_visits/api.rb:22-25 | The call is recorded once, whether it then succeeds or fails, and the outcome is the service's answer for those params: the Visit, or the error the post, `fetch('visit')` or `Visit.new` raises |
| BookingRequests.Create | app/services/booking_request_creator.rb:3-23 | `create!` makes exactly one `request_booking` call, with the payload built from the steps, on success and on failure alike, and returns that call's Visit, or lets its error through, unchanged |
| Dates.MinimumDateOfBirth | app/models/concerns/person.rb:24-26 | A valid date in the year `today.year - 120` that is at or before every valid date of that year: 1 January |
| Dates.MaximumDateOfBirth | app/models/concerns/person.rb:28-30 | A valid date in `today.year` that is at or after every valid date of that year: 31 December |
| Dates.BoundsOrdered | app/models/concerns/person.rb:24-30 | The lower bound is strictly before the upper bound |
| Dates.BoundsDependOnYear | app/models/concerns/dob.rb:15-21 | Two "today"s in the same year give identical bounds |
| Dates.InRangeIffYear | app/models/concerns/person.rb:9-13 | A valid date lies in the inclusion range iff its year lies in [`today.year - 120`, `today.year`], so a later date of the current year is accepted |
| Persons.DateOfBirthOf | app/models/concerns/person.rb:32-34 | The reader gives the stored value iff it is a Date, and nil for any other value |
| Persons.Age | app/models/concerns/person.rb:19-22 | `age` is nil iff there is no date of birth, and otherwise the calculator's age of it |
| Persons.Errors | app/models/concerns/person.rb:6-14 | At most four errors, each "can't be blank" or "is not included in the list". A name gets the presence error iff it is blank. The date of birth gets the presence error iff it is not a Date, and the inclusion error iff it is not a Date within the bounds |
| Persons.ValidIff | app/models/concerns/person.rb:6-14 | A person is valid iff both names are present and the date of birth is a Date whose year is in [`today.year - 120`, `today.year`] |
| Persons.NamesRequired | app/models/concerns/person.rb:7-8 | A blank first or last name gets the presence error |
| Persons.NonDateFailsPresence | app/models/concerns/person.rb:32-34 | A non-Date date of birth reads as nil: it fails presence and inclusion and has no age |
| Dobs.DobErrors | app/models/concerns/dob.rb:6-13 | A blank value gets no error; any error is exactly "Must be less than 120 years ago" |
| Dobs.DobValidIff | app/models/concerns/dob.rb:7-12 | A value passes iff it is blank or a Date whose year is in [`today.year - 120`, `today.year`]; otherwise it fails with the message |

## Left out

- The HTTP connection: `Excon.new`, `@connection.request` and `JSON.parse` of the response are network I/O and foreign libraries. The model stops at the options handed to the connection, and a request body is the symbolic `JsonOf(params)` rather than encoded text.
- Retry and error classification of the booking service client. Its code is not part of this model.
- `PrisonVisits::Api` other than `request_booking`: `get_prisons`, `get_prison`, `get_slots`, `get_visit` and `cancel_visit` are route wrappers outside the booking flow. `request_booking` is a recording class whose answer to a request, a Visit or an error, is a parameter, since the service and the wire format are not modelled.
- `ConcreteSlot` parsing and text format, and the booking constraints (`bookable_slot?`, `bookable_slots?`, quotas). Their code is not part of this model, so they are parameters.
- `VisitorsStep`, its visitors' `to_hash`, `Visitor.new` and `AgeCalculator`. Their code is not part of this model, so they are parameters. The age calculator is any function from dates to integers: a date of birth later in the current year is in range, and a calculator may give it a negative age.
- The `@constraints` memo of `SlotsStep` and its first-name switch to live slot data. Only the bookability predicate it yields is modelled.
- Visit's memoised prison lookup and the delegates built on it. This is an API call.
- The Virtus coercions of `confirm_by`, `cancellation_reason` and `cancelled_at`. These attributes are left out of `RawVisit`; the model has only plain attributes and booleans.
- Visits.Decode: does not tell an absent key from one holding nil, except for `processing_state`. An absent `processing_state` stays nil. A `processing_state` key holding nil would reach the coercer and fail with "Invalid processing_state for visit: ", and the model cannot express that input. Flags are taken as booleans or absent, and Virtus's coercion of other values to Boolean is not modelled. An absent `slots` or `visitors` key is written as the empty list, which Virtus gives a collection attribute by default.
- Visits.Decode: applies the coercers in declaration order (granted slot, slots, state). With several bad fields, Virtus reports the one whose key comes first in the input hash, which the model does not follow.
- Visits.CoerceProcessingState: takes the state as a string. A Symbol input (which `s.to_s == state` would also reject) is not modelled.
- The `name: true` validator on names. Its code is not part of this model.
- Dates.ValidDate: lets every month have 31 days, so no real calendar is modelled. The bounds are 1 January and 31 December, for which this makes no difference.
- Time zones: `120.years.ago` and `Time.zone.today` are taken from one "today" date.
- `Rails.configuration.pvb_api`: the API object is passed in explicitly.
- Ordering of Ruby hashes. Parameters, headers and the payload are maps, and key order is not modelled.
