# GC Travel & Tours MCP server — a verified model of its tour and booking logic

The server offers five tools to an AI assistant over the Model Context Protocol:
`search_tours`, `get_tour_details`, `create_booking`, `check_availability` and
`get_booking_status`. Behind them are two in-memory lists. One is the seeded tour
catalogue `DEMO_TOURS`, which nothing writes. The other is the booking store
`DEMO_BOOKINGS`, which `create_booking` grows by `push`.

This project models that logic in Dafny:

- `wrappers.dfy` (`Wrappers`): `Option`, for absent arguments and for lookups that find nothing.
- `sequences.dfy` (`Sequences`): `Find` and `Filter`, the models of JavaScript's
  `Array.prototype.find` and `Array.prototype.filter`. Also `FilterLoop`, the loop
  behind `filter`, and lemmas saying that filtering keeps order, is sound and is complete.
- `text.dfy` (`Text`): `toLowerCase` on ASCII letters, and `includes`. `includes` is
  proved equal to the substring relation.
- `catalogue.dfy` (`Catalogue`): the `Tour` and `Booking` records, the four seeded
  tours, and the booking id `BK` followed by the decimal clock reading.
- `queries.dfy` (`Queries`): the `search_tours` query. It has three optional filters.
  Each one applies only when its argument is truthy, and they combine with AND.
- `server.dfy` (`Server`): the class `TravelServer`. Its two fields are `tours` and
  `bookings`, and it has the five tools as members. `Decide` is the specification
  of `create_booking`, and `Valid` is the invariant of the booking store.

The handlers take the clock as input. `Date.now()` becomes the parameter `now`, a
natural number of milliseconds. `new Date().toISOString()` becomes the parameter
`createdAt`.

The model follows the code, including where its behaviour is narrower than the
tools' descriptions suggest:

- The handler of `create_booking` does not itself reject a malformed email or a party
  size outside 1..20. Only the tool's argument schema checks these, and it does so
  before the handler runs. So `CreateBooking` *requires* a party size within 1..20.
  The email is stored but never inspected.
- The only booking status the code ever writes is the string `"pending"`.
- A status lookup right after a booking returns the booking just created only when no
  earlier booking has the same id. Ids are `BK` plus the millisecond clock, so two
  bookings in the same millisecond share an id, and the lookup then returns the
  earlier one. `LookupAfterAppend`, `BookingIdCollides` and
  `SameMillisecondShadowsLookup` state this. `CreateBooking`'s own postconditions state
  it too, and `SameMillisecondOnOneServer` shows it for two calls on one server.
- Capacity is checked but never deducted. `CreateBooking` promises that the catalogue is
  unchanged. `BookTwiceOversells` makes two successive `CreateBooking` calls on one server,
  each through `BookEightOnT3`, and shows the eight-seat tour accepting sixteen people.

## Model

| member | source | states |
|---|---|---|
| `Sequences.Find` | index.ts:89 | `find` returns an element at an index where the predicate holds and holds at no earlier index; it returns nothing exactly when no element satisfies the predicate |
| `Sequences.FirstMatchUnique` | index.ts:89 | there is only one first match, so every lookup result is determined |
| `Sequences.FindAfterAppend` | index.ts:147 | after a `push`, an existing first match is unchanged; when there was none, the pushed element is found if it matches and nothing is found otherwise |
| `Sequences.Filter` | index.ts:50-59 | `filter`, used at index.ts:50, 56 and 59: keeps the elements satisfying the predicate, in input order; its contract bounds the length and makes every kept element an input element that satisfies the predicate; characterised fully by `FilterIsSubsequence` and `FilterCounts` |
| `Sequences.FilterIsSubsequence` | index.ts:50-59 | `filter` returns a subsequence of its input, in the input's order |
| `Sequences.FilterCounts` | index.ts:50-59 | `filter` keeps every occurrence of each element that satisfies the predicate and drops every occurrence of the others |
| `Sequences.FilterComplete` | index.ts:50-59 | every input element that satisfies the predicate is in the output |
| `Sequences.FilterAppend` | index.ts:50-59 | filtering a concatenation is the concatenation of the filtered parts |
| `Sequences.FilterTwice` | index.ts:49-60 | two filters applied in a row equal one filter by the conjunction of their predicates |
| `Sequences.FilterLoop` | index.ts:50-59 | one pass that pushes each satisfying element yields exactly the `filter` result |
| `Text.Lower` | index.ts:51-52 | `toLowerCase` on ASCII letters, applied to the query, the destination and the name; characterised by `LowerFacts` |
| `Text.Includes` | index.ts:51-52 | `includes`: does the needle start at some position of the string; characterised by `IncludesIsSubstring` |
| `Text.LowerFacts` | index.ts:51-52 | lower-casing keeps the length, leaves no upper-case ASCII letter and is idempotent |
| `Text.IncludesIsSubstring` | index.ts:51-52 | `includes` holds exactly when the needle occurs at some position of the string (both directions) |
| `Catalogue.Decimal` | index.ts:131 | the plain decimal rendering of the clock reading in the template literal; its contract gives at least one digit, and at least two from 10 on; injective by `DecimalInjective` |
| `Catalogue.BookingId` | index.ts:131 | `BK` followed by the decimal clock reading; equal ids exactly for equal readings by `BookingIdCollides` |
| `Catalogue.DecimalInjective` | index.ts:131 | different clock readings are rendered as different decimal strings |
| `Catalogue.BookingIdCollides` | index.ts:131 | two booking ids are equal exactly when the clock readings are equal, so bookings made in the same millisecond collide |
| `Catalogue.DemoTours` | index.ts:19-24 | the seeded catalogue `DEMO_TOURS`: the four tours t1 to t4 in catalogue order with their names, durations, prices, slots, destinations and highlights; the scenario lemmas are stated against it |
| `Queries.TruthyString` | index.ts:49 | JavaScript truthiness of the optional `destination` (and `duration`, index.ts:58): present and not the empty string |
| `Queries.TruthyNumber` | index.ts:55 | JavaScript truthiness of the optional `max_price`: present and not zero |
| `Queries.MatchesDestination` | index.ts:50-53 | the destination predicate: the lower-cased query is included in the lower-cased destination or in the lower-cased name (`ByDestination` passes it to `filter`); characterised by `DestinationMatchIsSubstring` and `DestinationMatchIgnoresCase` |
| `Queries.ByMaxPrice` | index.ts:56 | the budget predicate `price <= max_price`; `SearchByOwnPrice` and `SearchCorrect` state what it keeps |
| `Queries.ByDuration` | index.ts:59 | the duration predicate, exact string equality of the duration label; `SearchByDurationScenario` and `SearchCorrect` state what it keeps |
| `Queries.Search` | index.ts:47-60 | the three conditional filters in source order (destination, budget, duration), each only when its argument is truthy; characterised by `SearchIsOneFilter` and `SearchCorrect` |
| `Queries.FilterWhen` | index.ts:49-60 | a filter applied only under a condition equals a filter by "condition implies predicate" |
| `Queries.SearchIsOneFilter` | index.ts:47-60 | the three conditional filters in a row equal one filter by "every truthy filter is satisfied" |
| `Queries.SearchCorrect` | index.ts:47-60 | search results are in catalogue order; each satisfies every supplied filter; every catalogue tour that satisfies them is returned, as often as the catalogue lists it |
| `Queries.NoFilterReturnsCatalogue` | index.ts:49-59 | when no argument is truthy (each absent, or an empty string, or a zero budget), there is no constraint and search returns the whole catalogue |
| `Queries.DestinationMatchIsSubstring` | index.ts:50-53 | the destination filter keeps a tour exactly when the lower-cased query occurs in the lower-cased destination or in the lower-cased name |
| `Queries.DestinationMatchIgnoresCase` | index.ts:50-53 | a query and its lower-cased form match the same tours |
| `Queries.SearchByOwnDestination` | index.ts:49-53 | searching by a catalogue tour's own destination returns that tour |
| `Queries.SearchByOwnPrice` | index.ts:55-57 | a budget equal to a tour's non-zero price returns that tour and no dearer tour; a zero budget is falsy and returns the whole catalogue |
| `Queries.SearchByDurationScenario` | index.ts:58-60 | on the four seeded tours, the duration "4D3N" selects exactly the Boracay tour |
| `Server.Decide` | index.ts:123-145 | an unknown tour id is rejected first, exactly when no tour has that id; a party larger than the first matching tour's slots is rejected next; otherwise the result is a pending booking with that tour's name, the request's fields, the id from the clock and the total price times party size |
| `Server.HasTourId` | index.ts:89 | the `find` predicate on tours, `t.id === tour_id`, also used at index.ts:123 and 182; with `Find` it gives the first tour with the id |
| `Server.HasBookingId` | index.ts:207 | the `find` predicate on bookings, `b.id === booking_id`; with `Find` it gives the first booking with the id |
| `Server.TravelServer.constructor` | index.ts:19-26 | the server starts with the seeded catalogue, an empty booking store, and the store invariant |
| `Server.TravelServer.SearchTours` | index.ts:46-75 | "no tours found" is reported exactly when no catalogue tour satisfies the supplied filters; otherwise the report holds the filtered list and a count equal to its length |
| `Server.TravelServer.GetTourDetails` | index.ts:88-92 | returns the first catalogue tour with the id; not found exactly when no tour has it |
| `Server.TravelServer.CheckAvailability` | index.ts:181-190 | not found exactly for an unknown id; otherwise available exactly when the first matching tour has at least `partySize` slots, quoting price times party size; the travel date is ignored |
| `Server.TravelServer.GetBookingStatus` | index.ts:206-210 | returns the first stored booking with the id; not found exactly when no booking has it |
| `Server.TravelServer.CreateBooking` | index.ts:122-147 | its outcome is `Decide` on the catalogue; a rejected request leaves the store unchanged; an accepted one appends exactly that booking after the unchanged earlier entries; the catalogue and its slots never change; the store invariant is kept; a status lookup afterwards finds the new booking unless an earlier booking already had its id |
| `Server.AvailabilityPredictsBooking` | index.ts:182-189 | `check_availability` says available exactly when `create_booking` would accept the same tour and party size; both report an unknown tour alike; the quoted total is the booked amount |
| `Server.LookupAfterAppend` | index.ts:207-209 | looking up a just-appended booking's id finds it when no earlier booking has that id, and finds the earlier booking otherwise |
| `Server.StoredBookingsArePending` | index.ts:131-147 | under the store invariant, a booking found by status lookup is pending, has a party of 1 to 20, references a catalogue tour, and has a total of that tour's price times its party size |
| `Server.BookingScenario` | index.ts:131-143 | booking three people on tour t2 (12800 per person) is accepted, pending, for 38400 |
| `Server.AvailabilityScenario` | index.ts:187 | a group of nine does not fit tour t3's eight slots |
| `Server.OversellScenario` | index.ts:127-147 | because slots are never deducted, two eight-person bookings of the eight-slot tour t3 are both accepted, sixteen people in all |
| `Server.SameMillisecondShadowsLookup` | index.ts:131 | two bookings made in the same millisecond share an id, and a lookup of that id returns the earlier, different booking |
| `Server.BookThenLookUp` | index.ts:131-147 | on a fresh server, booking three people on t2 succeeds at 38400, and a status lookup of its id then returns that booking, pending |
| `Server.BookEightOnT3` | index.ts:127-147 | on a server still holding the seeded catalogue, one eight-person booking of t3 is accepted and appended after the earlier bookings, and the catalogue and the store invariant are kept |
| `Server.BookTwiceOversells` | index.ts:127-147 | on a fresh server, two successive eight-person bookings of the eight-slot t3 are both accepted; the store holds exactly those two, sixteen people in all, while the tour still shows eight slots |
| `Server.SameMillisecondOnOneServer` | index.ts:131 | on a fresh server, two bookings in the same millisecond get the same id, and a status lookup of the second one's id returns the first, different booking |

## Left out

- HTTP and transport: the Express app, the health endpoint, the `/mcp` route, the streamable HTTP transport and `app.listen` (index.ts:233-262). The dispatch of a tool name to its handler belongs to the MCP SDK, so the model calls the handlers directly.
- Argument schemas: the schema library's validation. Its one range the handler relies on, a party size of 1 to 20 for `create_booking`, is a precondition of `CreateBooking`. The email-format check is not modelled, because the handler only stores the email.
- `Server.TravelServer.CreateBooking`: the party-size range is a precondition and is not checked inside, because the schema rejects such calls before the handler runs.
- Text rendering: the Markdown and emoji messages, `toLocaleString`, `toLocaleDateString` and `toUpperCase` on the status. They are presentation, so the model returns structured outcomes instead.
- `Text.Lower`: lower-cases ASCII letters only, not full Unicode `toLowerCase`.
- JavaScript numbers: prices, slots, budgets and party sizes are integers. Fractions, `NaN` (also falsy as a budget) and floating-point overflow are not modelled.
- Clock reads: `Date.now()` and `new Date().toISOString()` are the parameters `now` and `createdAt`. `Decimal` renders every natural number in plain digits, which matches `Date.now()` for all realistic clock values. Id uniqueness is not claimed, because the code does not ensure it.
- Tour highlights are carried in `Tour` but used by no decision; they only appear in rendered text.
