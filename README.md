# Smart parking management: a Dafny model of the core

This project models the core of a small parking-lot manager written in Java.
That core covers the following:

- **Check-in.** Refused when a plate that normalises alike is already parked. Otherwise a
  ticket is created in a zone chosen from the vehicle's type and fuel: cars go to B,
  electric two-wheelers and bicycles to A1, petrol motorbikes to A2.
- **Three check-outs.** Real time, simulated, and lost ticket. Each bills the vehicle,
  books a charged monthly card in two places (the last-paid ledger and the append-only
  payment log) and removes the ticket.
- **Fee rules.** Bicycles are free. A monthly card pays 50,000 at most once per
  "MM/yyyy" month. A single-use ticket is free for 24 hours and then pays 5,000 per
  started day after the first.
- **The store.** Tickets and vehicles keyed by plate, exact and normalised lookups, and
  keyword suggestions.
- **The CSV data file.** It is written by `saveToFile` and read back by `loadFromFile`.
- **Plate input rules.** Normalisation, the motorbike and car patterns, and the generated
  bicycle identifiers.

## Modules

Each model module follows one source file. `JavaStrings` and `Wrappers` are support
modules.

- `Vehicles`, `Tickets`, `ParkingSlots` are the model classes. Their setters update
  fields in place.
- `Repository` is `ParkingRepository`.
  - It is a class whose `tickets` and `vehicles` maps hold object references.
  - `lastPaid` is the in-memory ledger.
  - `paymentLog` holds the lines of the payment-log file.
  - Save and load work on a file image, a sequence of lines.
- `Billing` is `BillingService`, and `Parking` is `ParkingService`. Errors that the
  source throws become an `Outcome` failure.
- `View` covers the validation and normalisation helpers of the console view.
- `JavaStrings` models the Java string operations these rely on: `trim`, ASCII
  `toUpperCase`, `replaceAll("\\s+", "")`, `contains`, `split(",")` with its dropping of
  trailing empty fields, and zero-padded decimal formatting.
- `Wrappers` holds `Option` and a few generic sequence helpers.

## Design decisions

**HashMap iteration order is not fixed.** Several loops in the source run over HashMap
keys: the normalised lookups, `searchByKeyword`, `getLastPaidMonth` and `saveToFile`. The
model picks keys in any order and returns that order as a ghost value. Two consequences
follow:

- `getLastPaidMonth` may answer with the month of any key that normalises like the
  plate. Its contract is therefore a relation, `LastPaidAnswer`.
- The fee of a monthly card is stated the same way. `LastPaidAnswerUnique` and
  `FeeRuleDeterministic` prove that the answer and the fee are unique once the ledger
  keys normalise apart.

**Time.** The Java `LocalDateTime` values are modelled as follows:

- An entry time is a count of whole hours.
- A checkout instant (`DateTime`) is an hour count together with its calendar month and
  year.
- The clock readings taken from `LocalDateTime.now()` are parameters.

**Java `int` arithmetic is modelled where it matters.** The simulated day total
`months * 30 + days` is a Java `int`, so it wraps. `SimulationOverflowWaivesFee` shows
that 71,582,789 months wrap to a negative total, which is then charged nothing.

**Where the code differs from its own comments and messages.** The model follows the
code in each case:

- **The simulation fee for a single-use ticket.** `printSimulationInvoice`
  (src/vn/parking/service/ParkingService.java:338-342) tells the user that the first
  day is free. `calculateSimulationFee` (src/vn/parking/service/BillingService.java:126-132)
  charges 5,000 for every simulated day, the first included
  (`SimulationChargesFirstDay`).
- **The simulation fee for a monthly card.** The comment on `calculateSimulationFee`
  (src/vn/parking/service/BillingService.java:98-106) speaks of months and extra days.
  The monthly branch (src/vn/parking/service/BillingService.java:114-124) consults only
  the payment log. It ignores the ledger and the day count.
- **Saving after check-in.** `checkIn` itself does not write the data file. The console
  controller saves after it (src/vn/parking/controller/ParkingController.java:108). The
  controller is not part of this model.

**The store's invariant.** `ParkingRepository.Linked` says that every ticket and every
vehicle is filed under its own plate. It also says that every ticket has a vehicle under
the same key, with the same monthly flag. `ParkingRepository.Storable` says that every
stored plate and month survives the CSV file. The constructor establishes both. They are
kept by the check-in, by the three check-outs, and by the store's add, remove and save
operations. Each of these states the conditions it needs on what it files. Loading a
file is not shown to keep them. The save-and-reload round trip assumes both.

**One store.** The controller hands the same store to the billing service and to the
parking service (src/vn/parking/controller/ParkingController.java:22-24).
`ParkingService.Valid` records this. Each check-out requires it, so the fee is read from
the store that the booking then writes to.

## Model

| member | source | states |
|---|---|---|
| Vehicles.ParseType | src/vn/parking/repository/ParkingRepository.java:302 | `VehicleType.valueOf`: yields a type exactly when the text is that type's name, and fails on anything else |
| Vehicles.ParseFuel | src/vn/parking/repository/ParkingRepository.java:304 | `FuelType.valueOf`: yields a fuel exactly when the text is that fuel's name, and fails on anything else |
| Vehicles.Vehicle.constructor | src/vn/parking/model/Vehicle.java:13-15 | the four-argument constructor stores its arguments, and no month is paid |
| Vehicles.Vehicle.WithLastPaidMonth | src/vn/parking/model/Vehicle.java:17-23 | the five-argument constructor stores all five arguments |
| Vehicles.Vehicle.SetPlate | src/vn/parking/model/Vehicle.java:47-49 | sets the plate; every other field is unchanged |
| Vehicles.Vehicle.SetType | src/vn/parking/model/Vehicle.java:51-53 | sets the type; every other field is unchanged |
| Vehicles.Vehicle.SetFuelType | src/vn/parking/model/Vehicle.java:55-57 | sets the fuel; every other field is unchanged |
| Vehicles.Vehicle.SetHasMonthlyCard | src/vn/parking/model/Vehicle.java:59-61 | sets the monthly-card flag; every other field is unchanged |
| Vehicles.Vehicle.SetLastPaidMonth | src/vn/parking/model/Vehicle.java:63-65 | sets the last paid month (possibly null); every other field is unchanged |
| Vehicles.Vehicle.ToCSV | src/vn/parking/model/Vehicle.java:71-79 | when neither the plate nor the month holds a comma, splitting the line at commas gives back exactly type name, plate, fuel name, MONTHLY/SINGLE and the month (empty for null) |
| Vehicles.ToCsvTicketKind | src/vn/parking/model/Vehicle.java:71-79 | the CSV line has five fields; the fourth reads MONTHLY exactly for monthly-card holders; the fifth is empty exactly when no month is recorded |
| Tickets.Ticket.constructor | src/vn/parking/model/Ticket.java:14-19 | stores plate, entry time, monthly flag and zone |
| Tickets.Ticket.SetPlate | src/vn/parking/model/Ticket.java:39-41 | sets the plate; the other fields are unchanged |
| Tickets.Ticket.SetEntryTime | src/vn/parking/model/Ticket.java:43-45 | sets the entry time; the other fields are unchanged |
| Tickets.Ticket.SetMonthlyTicket | src/vn/parking/model/Ticket.java:47-49 | sets the monthly flag; the other fields are unchanged |
| Tickets.Ticket.SetZone | src/vn/parking/model/Ticket.java:51-53 | sets the zone; the other fields are unchanged |
| ParkingSlots.ParkingSlot.constructor | src/vn/parking/model/ParkingSlot.java:12-17 | a new slot has its id and zone, is empty and unoccupied, and is consistent (occupied exactly when it holds a vehicle) |
| ParkingSlots.ParkingSlot.SetSlotId | src/vn/parking/model/ParkingSlot.java:37-39 | sets the id; the other fields are unchanged |
| ParkingSlots.ParkingSlot.SetZone | src/vn/parking/model/ParkingSlot.java:41-43 | sets the zone; the other fields are unchanged |
| ParkingSlots.ParkingSlot.SetOccupied | src/vn/parking/model/ParkingSlot.java:45-47 | sets the flag alone; the slot stays consistent exactly when the new flag agrees with the vehicle, so this setter can break the invariant |
| ParkingSlots.ParkingSlot.SetVehicle | src/vn/parking/model/ParkingSlot.java:49-52 | parks the vehicle, or empties the slot for null, with the flag in step: the slot is consistent afterwards |
| ParkingSlots.ParkingSlot.Release | src/vn/parking/model/ParkingSlot.java:57-60 | empties the slot, which is then consistent; id and zone are unchanged |
| JavaStrings.Trim | src/vn/parking/repository/ParkingRepository.java:76 | `trim`: the result is no longer than the input, and neither starts nor ends with a char at or below space |
| JavaStrings.TrimIdempotent | src/vn/parking/repository/ParkingRepository.java:76 | trimming twice is trimming once |
| JavaStrings.ToUpperCase | src/vn/parking/repository/ParkingRepository.java:76 | `toUpperCase` on ASCII: same length, and each char is upper-cased on its own |
| JavaStrings.RemoveSpaces | src/vn/parking/repository/ParkingRepository.java:76 | `replaceAll("\\s+", "")`: the result holds no whitespace and is no longer than the input |
| JavaStrings.RemoveSpacesOfSpaceless | src/vn/parking/repository/ParkingRepository.java:76 | a string without whitespace is left as it is |
| JavaStrings.Contains | src/vn/parking/repository/ParkingRepository.java:197 | `contains`: true exactly when the second string occurs at some index of the first |
| JavaStrings.DropTrailingEmpty | src/vn/parking/repository/ParkingRepository.java:298 | `split` drops exactly the trailing empty fields: the result is a prefix ending in a non-empty field, and everything dropped is empty |
| JavaStrings.FieldsOfJoin | src/vn/parking/repository/ParkingRepository.java:236-243 | fields free of the separator, joined and split again, are the same fields |
| JavaStrings.ZeroPad | src/vn/parking/view/ParkingView.java:121 | `%05d`-style padding: digits only, and as long as the width or the number itself, whichever is longer |
| JavaStrings.ZeroPadValue | src/vn/parking/view/ParkingView.java:121 | the padded digits read back as the number |
| Repository.NormalizedShape | src/vn/parking/repository/ParkingRepository.java:72-77 | `normalizePlate`: null gives ""; a normalised plate holds no whitespace and no lower-case letter |
| Repository.NormalizedIsTrimmed | src/vn/parking/repository/ParkingRepository.java:72-77 | a normalised plate has no blank at either end |
| Repository.NormalizeIdempotent | src/vn/parking/repository/ParkingRepository.java:72-77 | normalising a normalised plate changes nothing |
| Repository.NormalizeIgnoresTrim | src/vn/parking/repository/ParkingRepository.java:72-77 | trimming the input first does not change its normal form |
| Repository.DetermineZoneFromVehicle | src/vn/parking/repository/ParkingRepository.java:358-373 | the zone is A1, A2 or B: B exactly for cars, A2 exactly for petrol motorbikes, A1 otherwise |
| Repository.AppendPayment | src/vn/parking/repository/ParkingRepository.java:534-550 | `saveMonthlyPayment` on a log file: the header first when the log is empty, then the line plate,month at the end |
| Repository.ScanPaymentLog | src/vn/parking/repository/ParkingRepository.java:508-522 | the scan finds a match exactly when some line after the first splits into at least two fields whose trimmed plate normalises like the plate and whose trimmed month equals the month |
| Repository.PaymentRecordedIsSeen | src/vn/parking/repository/ParkingRepository.java:496-550 | once a payment for a comma-free plate and month is appended, `hasPaidMonthly` answers true for them |
| Repository.PaidInExtendedLog | src/vn/parking/repository/ParkingRepository.java:496-528 | a payment seen in a log is still seen after more lines are appended |
| Repository.PaidStaysPaid | src/vn/parking/repository/ParkingRepository.java:534-550 | appending a payment never makes an earlier payment unseen |
| Repository.LastPaidAfterUpdate | src/vn/parking/repository/ParkingRepository.java:459-490 | after `updatePaymentStatus(plate, month)`, `getLastPaidMonth(plate)` answers that month, provided no other ledger key normalises like the plate |
| Repository.FormatTimestamp | src/vn/parking/repository/ParkingRepository.java:239 | a written entry time is a non-empty field with no comma and no surrounding blanks |
| Repository.TimestampRoundTrip | src/vn/parking/repository/ParkingRepository.java:334 | every written entry time parses back to itself |
| Repository.EncodeRows | src/vn/parking/repository/ParkingRepository.java:233-259 | one printed line per row, in order, each the row's six fields joined by commas |
| Repository.StorableFields | src/vn/parking/repository/ParkingRepository.java:236-243 | the six fields written for a storable row hold no comma |
| Repository.EncodedRowNotBlank | src/vn/parking/repository/ParkingRepository.java:295 | a written row is never skipped as a blank line |
| Repository.SplitEncodedRow | src/vn/parking/repository/ParkingRepository.java:298 | `split(",")` of a written storable row gives its fields back, with an empty trailing month dropped as Java does |
| Repository.TypeFieldParses | src/vn/parking/repository/ParkingRepository.java:302 | a written type field, trimmed, parses to that type |
| Repository.FuelFieldParses | src/vn/parking/repository/ParkingRepository.java:304 | a written fuel field, trimmed, parses to that fuel |
| Repository.KindFieldParses | src/vn/parking/repository/ParkingRepository.java:305 | the written ticket-kind field reads as MONTHLY exactly for monthly rows |
| Repository.ParseEncodedRow | src/vn/parking/repository/ParkingRepository.java:294-341 | reading a written storable row gives back the same type, plate, entry time, fuel, kind and month |
| Repository.ParseEncodedRows | src/vn/parking/repository/ParkingRepository.java:294-347 | reading written storable rows gives back the rows, in order |
| Repository.DataHeaderHasSixColumns | src/vn/parking/repository/ParkingRepository.java:289-290 | the written header announces six columns, so the month column is read |
| Repository.LoadSavedFile | src/vn/parking/repository/ParkingRepository.java:283-347 | a whole file written by `saveToFile`, header included, loads as exactly the rows written |
| Repository.LastRows | src/vn/parking/repository/ParkingRepository.java:337-341 | the vehicles a load leaves: for each plate of the rows, a row about that plate taken from the rows, and no other plates |
| Repository.LastTicketRows | src/vn/parking/repository/ParkingRepository.java:331-338 | the tickets a load leaves: for each plate of a row with an entry time, such a row about that plate, and no other plates |
| Repository.LastRowsSnoc | src/vn/parking/repository/ParkingRepository.java:337-341 | a later row replaces the earlier ones about its plate (`put` overwrites) and changes no other plate |
| Repository.LastRowsOfUnique | src/vn/parking/repository/ParkingRepository.java:337-341 | when every row about a plate is the same row, that row is what the load keeps |
| Repository.KeepContainingSnoc | src/vn/parking/repository/ParkingRepository.java:197-199 | one more ticket adds its plate at the end exactly when its normal form contains the keyword |
| Repository.KeepContainingSpec | src/vn/parking/repository/ParkingRepository.java:192-200 | a plate is suggested exactly when it is one of the plates and its normal form contains the normalised keyword; there are never more suggestions than plates |
| Repository.BlankKeywordKeepsAll | src/vn/parking/repository/ParkingRepository.java:185-199 | a non-empty keyword of blanks normalises to "" and suggests every ticket |
| Repository.ParkingRepository.constructor | src/vn/parking/repository/ParkingRepository.java:28-32 | an empty store (no tickets, no vehicles, empty ledger) over the payment log found on disk; it is linked and storable |
| Repository.ParkingRepository.Add | src/vn/parking/repository/ParkingRepository.java:46-50 | `add`: null is ignored, and any other vehicle is filed under its plate; nothing else changes; the store stays linked when a ticket under the plate carries the vehicle's monthly flag, and storable when the plate and month survive CSV |
| Repository.ParkingRepository.Remove | src/vn/parking/repository/ParkingRepository.java:56-60 | `remove`: null is ignored; otherwise the vehicle key equal to the item's plate is dropped; the store stays storable, and linked when no ticket is filed under that plate |
| Repository.ParkingRepository.SaveTicket | src/vn/parking/repository/ParkingRepository.java:65-67 | `saveTicket`: the ticket is filed under its plate, replacing any earlier one, and the exact lookup then finds it; the store stays storable, and linked when a vehicle with the ticket's monthly flag is filed under the plate |
| Repository.ParkingRepository.RemoveTicket | src/vn/parking/repository/ParkingRepository.java:135-137 | `removeTicket`: the key is dropped and the exact lookup then finds nothing; vehicles and ledgers are unchanged; the store stays linked and storable |
| Repository.ParkingRepository.SaveVehicle | src/vn/parking/repository/ParkingRepository.java:142-144 | `saveVehicle`: the vehicle is filed under its plate, and the exact lookup then finds it; the store stays linked when a ticket under the plate carries the vehicle's monthly flag, and storable when the plate and month survive CSV |
| Repository.ParkingRepository.FindTicketByPlate | src/vn/parking/repository/ParkingRepository.java:82-87 | null for a null plate or an absent key, and otherwise the ticket filed under exactly that key |
| Repository.ParkingRepository.FindVehicleByPlate | src/vn/parking/repository/ParkingRepository.java:149-154 | null for a null plate or an absent key, and otherwise the vehicle filed under exactly that key |
| Repository.ParkingRepository.FindTicketByPlateNormalized | src/vn/parking/repository/ParkingRepository.java:94-110 | null for null or empty input; otherwise a stored key that normalises like the input, and null only when no key does |
| Repository.ParkingRepository.IsVehicleParked | src/vn/parking/repository/ParkingRepository.java:115-130 | true exactly when the plate is present and some ticket key normalises like it |
| Repository.ParkingRepository.FindVehicleByPlateNormalized | src/vn/parking/repository/ParkingRepository.java:159-175 | null for null or empty input; otherwise the vehicle under a key that normalises like the input, and null only when no key does |
| Repository.ParkingRepository.SearchByKeyword | src/vn/parking/repository/ParkingRepository.java:182-203 | nothing for a null or empty keyword; otherwise, in one iteration order of the tickets, the plate of each ticket whose normal form contains the normalised keyword |
| Repository.ParkingRepository.UpdatePaymentStatus | src/vn/parking/repository/ParkingRepository.java:459-466 | the ledger maps the plate to the month, unless either is null or empty, in which case nothing changes |
| Repository.ParkingRepository.GetLastPaidMonth | src/vn/parking/repository/ParkingRepository.java:473-490 | null for null or empty plates, and null exactly when no ledger key normalises like the plate; otherwise the month of such a key |
| Repository.ParkingRepository.HasPaidMonthly | src/vn/parking/repository/ParkingRepository.java:496-528 | false for null or empty arguments; otherwise true exactly when a log line after the header records the normalised plate and exactly the month |
| Repository.ParkingRepository.SaveMonthlyPayment | src/vn/parking/repository/ParkingRepository.java:534-550 | null or empty arguments change nothing; otherwise the log gains the payment line, after a header if the log was empty |
| Repository.ParkingRepository.TicketRows | src/vn/parking/repository/ParkingRepository.java:233-245 | the rows of the first loop: a row is written exactly for each listed ticket whose plate has a vehicle, with the ticket's entry time |
| Repository.ParkingRepository.VehicleOnlyRows | src/vn/parking/repository/ParkingRepository.java:248-259 | the rows of the second loop: a row without an entry time is written exactly for each listed vehicle whose plate has no ticket |
| Repository.ParkingRepository.SaveToFile | src/vn/parking/repository/ParkingRepository.java:223-265 | the file is the header, then the ticket rows, then the vehicle-only rows, each loop in one iteration order of its map |
| Repository.ParkingRepository.CollectTicketRows | src/vn/parking/repository/ParkingRepository.java:233-245 | the loop over the tickets visits each key once and collects exactly the ticket rows in that order |
| Repository.ParkingRepository.CollectVehicleRows | src/vn/parking/repository/ParkingRepository.java:248-259 | the loop over the vehicles visits each key once and collects exactly the vehicle-only rows in that order |
| Repository.ParkingRepository.LoadFromFile | src/vn/parking/repository/ParkingRepository.java:272-353 | the store gains, over what it held, the vehicle of the last row about each plate and the ticket (zone from its vehicle) of the last row with an entry time; the ledger and log are unchanged |
| Repository.ParkingRepository.LoadLines | src/vn/parking/repository/ParkingRepository.java:294-347 | the read loop: after all lines, the store holds what the parsed rows give, merged over what it held |
| Repository.ParkingRepository.LoadLine | src/vn/parking/repository/ParkingRepository.java:295-342 | one iteration: a line that parses is stored, and one that does not is skipped |
| Repository.ParkingRepository.StoreRow | src/vn/parking/repository/ParkingRepository.java:332-341 | one parsed row: a ticket when it has an entry time, then its vehicle, each filed under the row's plate |
| Repository.SavedRowsFacts | src/vn/parking/repository/ParkingRepository.java:233-259 | the saved rows are storable, each names a stored vehicle, each has an entry time exactly when its plate has a ticket, and no two share a plate |
| Repository.TicketRowsOfStore | src/vn/parking/repository/ParkingRepository.java:233-245 | every ticket row is the row of the ticket and vehicle under its plate, and every linked ticket has its row |
| Repository.VehicleOnlyRowsOfStore | src/vn/parking/repository/ParkingRepository.java:248-259 | every vehicle-only row is the row of the vehicle under its plate, and every vehicle without a ticket has its row |
| Repository.ReloadedVehicles | src/vn/parking/repository/ParkingRepository.java:316-341 | rows naming exactly the stored vehicles, one per plate, rebuild every vehicle field for field |
| Repository.ReloadedTickets | src/vn/parking/repository/ParkingRepository.java:331-338 | such rows rebuild every ticket with its plate, entry time and monthly flag, its zone recomputed from the vehicle |
| Repository.SavedRowsRebuild | src/vn/parking/repository/ParkingRepository.java:233-341 | the rows saved from a linked, storable store are storable and rebuild its vehicles, and its tickets with their zones recomputed |
| Repository.SavedRowsReload | src/vn/parking/repository/ParkingRepository.java:223-353 | the file saved from such a store loads as rows that rebuild the same vehicles and the rezoned tickets |
| Repository.SaveAndReload | src/vn/parking/repository/ParkingRepository.java:223-353 | save, then load into a fresh store: every vehicle is back field for field, and every ticket with its zone recomputed |
| Repository.Reload | src/vn/parking/repository/ParkingRepository.java:272-353 | a new store after a load holds exactly what the file's rows give |
| Repository.RezonedWhenZonesFollow | src/vn/parking/repository/ParkingRepository.java:358-373 | when every ticket's zone already follows its vehicle, the reloaded tickets are exactly the saved ones |
| Billing.GetCurrentMonth | src/vn/parking/service/BillingService.java:138-140 | the token is seven chars: the month in two digits, a slash, the year in four digits |
| Billing.SameMonthToken | src/vn/parking/service/BillingService.java:138-140 | two instants give the same token exactly when they share month and year |
| Billing.MonthTokenStorable | src/vn/parking/service/BillingService.java:138-140 | the token is non-empty, comma-free and trimmed, so the log and the data file keep it as it is |
| Billing.GuestTicketFee | src/vn/parking/service/BillingService.java:79-96 | nothing up to 24 hours (negative durations included); beyond that, 5,000 per started day less the first, the charged days being the whole days the hours exceed |
| Billing.GuestFeeExamples | src/vn/parking/service/BillingService.java:79-96 | fees for -5h, 24h, 25h, 48h and 49h are 0, 0, 5,000, 5,000 and 10,000 |
| Billing.GuestFeeMonotone | src/vn/parking/service/BillingService.java:79-96 | parking longer never costs less |
| Billing.MonthlyFee | src/vn/parking/service/BillingService.java:53-69 | nothing exactly when the log records the month or the ledger answers exactly that month; otherwise 50,000 |
| Billing.LoggedMonthIsFree | src/vn/parking/service/BillingService.java:53-69 | once a payment for the plate and month is logged, the monthly fee for them is nothing, whatever the ledger answers |
| Billing.Wrap32 | src/vn/parking/service/BillingService.java:128 | Java `int` wrap-around: the result is a 32-bit value congruent to the input modulo 2^32, and equals any input already in range |
| Billing.SimulatedDays | src/vn/parking/service/BillingService.java:128 | `months * 30 + days` as an `int`: always in range, and the true sum whenever no step overflows |
| Billing.SimulationGuestFee | src/vn/parking/service/BillingService.java:128-132 | nothing exactly when the total is at most zero days; otherwise 5,000 per day |
| Billing.SimulationChargesFirstDay | src/vn/parking/service/BillingService.java:126-132 | a simulated stay of n whole days pays one day more than the real-time rule charges for n * 24 hours |
| Billing.SimulationOverflowWaivesFee | src/vn/parking/service/BillingService.java:128-132 | 71,582,789 months overflow the `int` total to a negative number, and the stay is charged nothing |
| Billing.FeeRuleShape | src/vn/parking/service/BillingService.java:32-45 | every charge is non-negative and a multiple of 5,000; bicycles pay nothing; monthly cards pay 0 or 50,000 |
| Billing.MonthlyFeeByMonth | src/vn/parking/service/BillingService.java:38-41 | a monthly card's charge depends only on the checkout month, not on the entry time or the hour |
| Repository.LastPaidAnswerUnique | src/vn/parking/repository/ParkingRepository.java:459-490 | when no two ledger keys normalise alike, `getLastPaidMonth` has a single answer whatever the map's iteration order |
| Billing.FeeRuleDeterministic | src/vn/parking/service/BillingService.java:53-69 | when the ledger keys normalise apart, the fee is unique |
| Billing.SimulationFeeShape | src/vn/parking/service/BillingService.java:107-133 | a simulated charge is 0 for bicycles, 0 or 50,000 for monthly cards, and otherwise 5,000 per simulated `int` day (nothing for a total at most zero) |
| Billing.BillingService.constructor | src/vn/parking/service/BillingService.java:20-22 | the service reads the store it is given |
| Billing.BillingService.CalculateMonthlyTicketFee | src/vn/parking/service/BillingService.java:53-69 | the fee is the monthly rule on the store's log and on a possible answer of the ledger lookup |
| Billing.BillingService.CalculateFee | src/vn/parking/service/BillingService.java:32-45 | the fee is what the fee rule gives for the vehicle: bicycle, monthly card, or single-use ticket by hours parked |
| Billing.BillingService.CalculateSimulationFee | src/vn/parking/service/BillingService.java:107-133 | the fee is what the simulation rule gives for the vehicle, the month count and the day count |
| Parking.DetermineZone | src/vn/parking/service/ParkingService.java:82-102 | a zone among A1, A2 and B, the same as the store's own rule for rebuilt tickets |
| Parking.CheckInKeepsPlatesApart | src/vn/parking/service/ParkingService.java:51-55 | admitting a plate that no parked plate normalises like keeps all parked plates normalising apart |
| Parking.SecondMonthlyCheckoutFree | src/vn/parking/service/ParkingService.java:133-138 | after a charged monthly checkout has been booked, a second checkout in the same month costs nothing |
| Parking.ParkingService.constructor | src/vn/parking/service/ParkingService.java:20-23 | the service works on the given store and billing service; given a billing service over that same store, as the controller builds them, the service is consistent (`Valid`) |
| Parking.ParkingService.FindTicketSmart | src/vn/parking/service/ParkingService.java:30-37 | exactly the exact-key lookup |
| Parking.ParkingService.CheckIn | src/vn/parking/service/ParkingService.java:51-77 | fails, changing nothing, exactly when a parked plate normalises like the vehicle's; otherwise a new ticket (given entry time, the vehicle's monthly flag and zone) and the vehicle are filed under the plate; parked plates keep normalising apart; the store stays linked, and storable when the vehicle's plate and month survive CSV |
| Parking.ParkingService.FileEntry | src/vn/parking/service/ParkingService.java:70-71 | the ticket, then the vehicle, are filed under the vehicle's plate; with the ticket carrying the vehicle's plate and flag the store stays linked, and storable when the plate and month survive CSV |
| Parking.ParkingService.Backdate | src/vn/parking/service/ParkingService.java:187 | the ticket's entry time is rewritten, its plate, flag and zone kept, so the store stays linked |
| Parking.ParkingService.RecordPayment | src/vn/parking/service/ParkingService.java:134-138 | when a monthly card was charged, the ledger takes the month under the plate and the log gains the payment; tickets and vehicles are unchanged, so the store stays linked and storable |
| Parking.ParkingService.CheckOut | src/vn/parking/service/ParkingService.java:111-150 | fails without a ticket, or without a vehicle, changing nothing; otherwise the fee follows the fee rule from entry to now, a charged monthly card is booked for the month, and the ticket alone is removed; the fee is read from the store the booking writes to; the store stays linked and storable |
| Parking.ParkingService.CheckOutSimulation | src/vn/parking/service/ParkingService.java:169-215 | the same failures; otherwise the entry time is moved back by the `int` day total, the fee follows the simulation rule, a charged monthly card is booked for the simulated month, and the ticket is removed; the store stays linked and storable |
| Parking.ParkingService.ProcessLostTicket | src/vn/parking/service/ParkingService.java:223-267 | the same failures; otherwise the total is the 50,000 fine plus the fee rule's charge, the booking depends on the parking fee alone, and the ticket is removed; the store stays linked and storable |
| Parking.ParkingService.CheckOutCheckInCheckOut | src/vn/parking/service/ParkingService.java:111-150 | a monthly card checking out, back in and out again in the same month succeeds each time, and the second checkout costs nothing when the first one charged the card or the ledger keys normalise apart |
| View.NormalizeInput | src/vn/parking/view/ParkingView.java:39-45 | the same normal form as the store's: null gives "", the result holds no whitespace and no lower-case letter, is trimmed, and is its own normal form |
| View.BikeMatcherCorrect | src/vn/parking/view/ParkingView.java:84 | the matcher accepts exactly the strings of `[A-Z0-9]{3,4}-[0-9]{4,5}` |
| View.BikeShapeLength | src/vn/parking/view/ParkingView.java:84-95 | strings of the motorbike pattern are 8 to 10 chars long; the length check refuses only the 8-char ones |
| View.CarMatcherCorrect | src/vn/parking/view/ParkingView.java:102 | the matcher accepts exactly the strings of `\d{2}[A-Z]{1,2}-\d{1,5}(\.\d{1,2})?` |
| View.CarShapeMatches | src/vn/parking/view/ParkingView.java:102 | every string of the car pattern is accepted by the matcher |
| View.CarMatchIsShape | src/vn/parking/view/ParkingView.java:102 | every string the matcher accepts has the car pattern |
| View.ValidateLicensePlate | src/vn/parking/view/ParkingView.java:79-112 | a motorbike plate is valid exactly when it has the pattern and 9 or 10 chars; a car plate exactly when it has its pattern; a bicycle plate never |
| View.BikeAccepted | src/vn/parking/view/ParkingView.java:80-96 | any 9 or 10 char string of the motorbike pattern is accepted |
| View.CarAccepted | src/vn/parking/view/ParkingView.java:98-108 | any string of the car pattern is accepted |
| View.BikeExamplesAccepted | src/vn/parking/view/ParkingView.java:87 | the example motorbike plates are accepted |
| View.ShortBikeRefused | src/vn/parking/view/ParkingView.java:91-95 | an 8-char plate that the motorbike pattern alone allows is refused by the length check |
| View.CarExamplesAccepted | src/vn/parking/view/ParkingView.java:100 | the example car plates are accepted |
| View.UndashedCarRefused | src/vn/parking/view/ParkingView.java:102-107 | a car plate without its dash is refused |
| View.AcceptedPlateHasOneDash | src/vn/parking/view/ParkingView.java:76-79 | every accepted plate holds exactly one dash, the required separator |
| View.BikeDashes | src/vn/parking/view/ParkingView.java:84 | a string of the motorbike pattern holds exactly one dash |
| View.CarDashes | src/vn/parking/view/ParkingView.java:102 | a string of the car pattern holds exactly one dash |
| View.PlainPlateIsNormal | src/vn/parking/view/ParkingView.java:39-45 | a string of capitals, digits, dashes and dots is its own normal form |
| View.AcceptedPlateIsNormal | src/vn/parking/view/ParkingView.java:62-71 | a plate the validator accepts is its own normal form, so the store keys it as typed |
| View.GenerateBicyclePlate | src/vn/parking/view/ParkingView.java:117-122 | "BIKE-" followed by five digits that read back as the draw |
| View.BicyclePlatesDiffer | src/vn/parking/view/ParkingView.java:117-122 | different draws give different identifiers |
| View.BicyclePlateShape | src/vn/parking/view/ParkingView.java:117-122 | a bicycle identifier passes the motorbike plate check and is its own normal form |

## Left out

- File I/O is not modelled. A file is the sequence of its lines, and a missing file reads as no lines. The `IOException` branches, the default file name and the zero-argument `saveToFile()`/`loadFromFile()` overloads are left out.
- `loadMonthlyHistory` and `saveMonthlyHistory` (the ledger file `monthly_history.csv`) are not modelled. Only the in-memory ledger they mirror is kept.
- `getAll`, `getAllActiveTickets`, `getAllVehicles` and `getVehicleList` only copy map values into a list, so they are not modelled.
- Console output is left out: the invoices, the success and error messages, and the `getLastPaidMonth` call each checkout makes only for display.
- Scanner-driven input (`inputLicensePlate`'s loop and the other `input*` methods), the controller, `Main` and the `IRepository`/`IParkingService` interfaces are left out.
- The `Car`, `Motorbike` and `Bicycle` subclasses are left out. They only fix the type, so the type is a field.
- `Random` is a parameter: `GenerateBicyclePlate` takes the drawn number.
- Calendar arithmetic is not modelled. Nothing derives the month of an instant from its hour count, or computes `minusMonths`/`minusDays`. `CheckOutSimulation` takes the simulated checkout instant as a parameter.
- Repository.FormatTimestamp: writes an entry time as a decimal count of hours rather than the `yyyy-MM-dd HH:mm:ss` pattern, because entry times are hour counts here. The round trip it proves is the one the pattern gives for whole-hour times.
- Billing.GuestTicketFee: computes the ceiling of hours / 24 exactly. The source computes it in `double` and casts the product to `long`, which agrees for every realistic duration but not beyond 2^53 hours.
- Billing.GetCurrentMonth: covers years 1 to 9999 only, the years `MM/yyyy` prints without a sign.
- JavaStrings.ToUpperCase: upper-cases ASCII letters only. `trim` and `\s` follow Java's ASCII definitions.
- Repository.ParkingRepository.LoadFromFile: does not state that the loaded tickets and vehicles are new objects. It states their fields. It is also not shown to keep the store linked or storable. A row without an entry time can replace the vehicle of a ticketed plate with one whose monthly flag differs.
- Parking.ParkingService.CheckOutCheckInCheckOut: when the first checkout charged nothing, the second is shown free only if the ledger keys normalise apart. Otherwise the model lets the two lookups answer from different alike keys, where the source's fixed iteration order would give one answer.
- HashMap iteration order is not fixed by the model. Where the source's result depends on it, the contracts hold for every order, and the order used is a ghost result.
