/**
 * The parking workflow (service/ParkingService.java): check-in, the three kinds of
 * check-out (real time, simulated, lost ticket) and the ticket lookup, run against
 * the store and the billing service. Where the source throws IllegalStateException
 * the model returns a `Failure`; the clock readings it takes from
 * `LocalDateTime.now()` are parameters.
 */
module Parking {
  import opened Wrappers
  import opened JavaStrings
  import opened Vehicles
  import opened Tickets
  import opened Repository
  import opened Billing

  /** the fine for a lost ticket */
  const LostTicketFine: int := 50000

  datatype ServiceError =
    | AlreadyParked    // check-in of a plate that already has a ticket
    | TicketNotFound   // no ticket under the plate
    | VehicleNotFound  // a ticket but no vehicle under the plate

  datatype Outcome<T> = Success(value: T) | Failure(error: ServiceError)

  /** `determineZone`: cars to B; electric two-wheelers and bicycles to A1; petrol
      motorbikes to A2; anything else to A1. It agrees with the rule the store uses
      when it rebuilds tickets from the data file. */
  function DetermineZone(vehicle: Vehicle): (zone: string)
    reads vehicle
    ensures IsZone(zone)
    ensures zone == DetermineZoneFromVehicle(vehicle.vtype, vehicle.fuelType)
  {
    if vehicle.vtype == CAR then "B"
    else if vehicle.fuelType == ELECTRIC || vehicle.vtype == BICYCLE then "A1"
    else if vehicle.fuelType == GASOLINE then "A2"
    else "A1"
  }

  /** Adding a plate that no key normalises like keeps the keys normalising apart:
      the rule `checkIn` enforces. */
  lemma CheckInKeepsPlatesApart(keys: set<string>, plate: string)
    requires NormalizesApart(keys)
    requires !HasAlikeKey(keys, Some(plate))
    ensures NormalizesApart(keys + {plate})
  {
    forall k1, k2 | k1 in keys + {plate} && k2 in keys + {plate} && k1 != k2
      ensures NormalizePlate(Some(k1)) != NormalizePlate(Some(k2))
    {
      if k1 == plate {
        assert k2 in keys;
      } else if k2 == plate {
        assert k1 in keys;
      }
    }
  }

  /** After a charged monthly checkout, which logs the plate under the checkout month,
      a second checkout of the same vehicle in the same month costs nothing. */
  lemma SecondMonthlyCheckoutFree(vtype: VehicleType, plate: string, ledger: map<string, string>,
                                  log: seq<string>, first: DateTime, second: DateTime, entryHour: int,
                                  recorded: Option<string>, fee: int)
    requires plate != "" && ',' !in plate
    requires first.month == second.month && first.year == second.year
    requires FeeRule(vtype, true, plate, ledger[plate := GetCurrentMonth(first)],
                     AppendPayment(log, plate, GetCurrentMonth(first)), second, entryHour, recorded, fee)
    ensures fee == 0
  {
    SameMonthToken(first, second);
    LoggedMonthIsFree(log, plate, second, recorded);
  }

  class ParkingService {
    const repository: ParkingRepository
    const billingService: BillingService

    /** The billing service reads the store the workflow writes to, as the
        application wires them. */
    ghost predicate Valid()
    {
      billingService.repository == repository
    }

    constructor (repository: ParkingRepository, billingService: BillingService)
      requires billingService.repository == repository
      ensures this.repository == repository && this.billingService == billingService
      ensures Valid()
    {
      this.repository := repository;
      this.billingService := billingService;
    }

    /** `findTicketSmart`: the exact lookup, nothing more. */
    function FindTicketSmart(plate: Option<string>): (r: Option<Ticket>)
      reads repository
      ensures r.Some? <==> plate.Some? && plate.value in repository.tickets
      ensures r.Some? ==> r.value == repository.tickets[plate.value]
    {
      repository.FindTicketByPlate(plate)
    }

    /** `checkIn`: refused when some ticket's plate normalises like the vehicle's;
        otherwise a new ticket at `now` in the vehicle's zone, with its monthly flag,
        is filed under the vehicle's plate, and so is the vehicle. */
    method CheckIn(vehicle: Vehicle, now: int) returns (r: Outcome<Ticket>)
      modifies repository
      ensures r.Failure? <==> HasAlikeKey(old(repository.tickets).Keys, Some(vehicle.plate))
      ensures r.Failure? ==>
                r.error == AlreadyParked &&
                repository.tickets == old(repository.tickets) && repository.vehicles == old(repository.vehicles)
      ensures r.Success? ==>
                fresh(r.value) && r.value.plate == vehicle.plate && r.value.entryTime == now &&
                r.value.isMonthlyTicket == vehicle.hasMonthlyCard &&
                r.value.zone == DetermineZoneFromVehicle(vehicle.vtype, vehicle.fuelType) &&
                repository.tickets == old(repository.tickets)[vehicle.plate := r.value] &&
                repository.vehicles == old(repository.vehicles)[vehicle.plate := vehicle]
      ensures old(NormalizesApart(repository.tickets.Keys)) ==> NormalizesApart(repository.tickets.Keys)
      ensures repository.lastPaid == old(repository.lastPaid) && repository.paymentLog == old(repository.paymentLog)
      ensures old(repository.Linked()) ==> repository.Linked()
      ensures (old(repository.Storable()) && ',' !in vehicle.plate && IsTrimmed(vehicle.plate) &&
               StorableMonth(vehicle.lastPaidMonth)) ==> repository.Storable()
    {
      var parked := repository.IsVehicleParked(Some(vehicle.plate));
      if parked {
        return Failure(AlreadyParked);
      }
      ghost var keys := repository.tickets.Keys;
      var zone := DetermineZone(vehicle);
      var ticket := new Ticket(vehicle.plate, now, vehicle.hasMonthlyCard, zone);
      FileEntry(ticket, vehicle);
      assert repository.tickets.Keys == keys + {vehicle.plate};
      if NormalizesApart(keys) {
        CheckInKeepsPlatesApart(keys, vehicle.plate);
      }
      return Success(ticket);
    }

    /** The two saves that end `checkIn`: the ticket, then the vehicle, each under
        the vehicle's plate. A ticket carrying the vehicle's plate and card keeps the
        store linked. */
    method FileEntry(ticket: Ticket, vehicle: Vehicle)
      requires ticket.plate == vehicle.plate && ticket.isMonthlyTicket == vehicle.hasMonthlyCard
      modifies repository
      ensures repository.tickets == old(repository.tickets)[vehicle.plate := ticket]
      ensures repository.vehicles == old(repository.vehicles)[vehicle.plate := vehicle]
      ensures repository.lastPaid == old(repository.lastPaid) && repository.paymentLog == old(repository.paymentLog)
      ensures old(repository.Linked()) ==> repository.Linked()
      ensures (old(repository.Storable()) && ',' !in vehicle.plate && IsTrimmed(vehicle.plate) &&
               StorableMonth(vehicle.lastPaidMonth)) ==> repository.Storable()
    {
      ghost var tv, vv := TicketViews(repository.tickets), VehicleViews(repository.vehicles);
      repository.LinkedByViews();
      repository.StorableByViews();
      repository.SaveTicket(ticket);
      repository.SaveVehicle(vehicle);
      if ViewsLinked(tv, vv) {
        repository.LinkedAfterFiling(tv, vv, TicketState(ticket), VehicleRow(vehicle));
      }
      if ViewsStorable(vv) && ',' !in vehicle.plate && IsTrimmed(vehicle.plate) && StorableMonth(vehicle.lastPaidMonth) {
        repository.StorableAfterFiling(vv, VehicleRow(vehicle));
      }
    }

    /** The simulated checkout's rewrite of a ticket's entry time: the ticket keeps
        its plate, flag and zone, so the store stays linked. */
    method Backdate(ticket: Ticket, entryTime: int)
      modifies ticket
      ensures ticket.entryTime == entryTime
      ensures ticket.plate == old(ticket.plate) && ticket.isMonthlyTicket == old(ticket.isMonthlyTicket) &&
              ticket.zone == old(ticket.zone)
      ensures old(repository.Linked()) ==> repository.Linked()
    {
      ticket.SetEntryTime(entryTime);
    }

    /** The payment bookkeeping shared by the three checkouts: when a monthly card
        was charged, the ledger takes the month under the plate and the log gains
        the payment. */
    method RecordPayment(plate: Option<string>, charged: bool, month: string)
      modifies repository
      ensures repository.lastPaid ==
                if charged && plate.Some? && plate.value != "" && month != ""
                then old(repository.lastPaid)[plate.value := month] else old(repository.lastPaid)
      ensures repository.paymentLog ==
                if charged && plate.Some? && plate.value != "" && month != ""
                then AppendPayment(old(repository.paymentLog), plate.value, month) else old(repository.paymentLog)
      ensures repository.tickets == old(repository.tickets) && repository.vehicles == old(repository.vehicles)
      ensures old(repository.Linked()) ==> repository.Linked()
      ensures old(repository.Storable()) ==> repository.Storable()
    {
      if charged {
        repository.UpdatePaymentStatus(plate, Some(month));
        repository.SaveMonthlyPayment(plate, Some(month));
      }
    }

    /** `checkOut` at the clock reading `now`: fails without a ticket or without a
        vehicle under the plate, changing nothing. Otherwise the fee is the rule's
        charge for the vehicle, from the ticket's entry time to `now`, on the ledger
        and log the billing service reads (`recorded` is the ledger's answer); a
        charged monthly card is booked for the month of `now`; the ticket is removed
        and the vehicle kept. */
    method CheckOut(plate: Option<string>, now: DateTime) returns (r: Outcome<int>, ghost recorded: Option<string>)
      requires Valid()
      modifies repository
      ensures old(repository.Linked()) ==> repository.Linked()
      ensures old(repository.Storable()) ==> repository.Storable()
      ensures r.Failure? <==> plate.None? || plate.value !in old(repository.tickets) ||
                              plate.value !in old(repository.vehicles)
      ensures r.Failure? ==>
                r.error == (if plate.None? || plate.value !in old(repository.tickets) then TicketNotFound
                            else VehicleNotFound) &&
                repository.tickets == old(repository.tickets) && repository.vehicles == old(repository.vehicles) &&
                repository.lastPaid == old(repository.lastPaid) && repository.paymentLog == old(repository.paymentLog)
      ensures r.Success? ==>
                var p := plate.value;
                var v := old(repository.vehicles[p]);
                FeeRule(v.vtype, v.hasMonthlyCard, v.plate, old(repository.lastPaid),
                        old(repository.paymentLog), now, old(repository.tickets[p].entryTime),
                        recorded, r.value) &&
                repository.tickets == old(repository.tickets) - {p} &&
                repository.vehicles == old(repository.vehicles) &&
                var charged := v.hasMonthlyCard && r.value > 0 && p != "";
                repository.lastPaid ==
                  (if charged then old(repository.lastPaid)[p := GetCurrentMonth(now)] else old(repository.lastPaid)) &&
                repository.paymentLog ==
                  (if charged then AppendPayment(old(repository.paymentLog), p, GetCurrentMonth(now))
                   else old(repository.paymentLog))
    {
      recorded := None;
      var ticket := repository.FindTicketByPlate(plate);
      if ticket.None? {
        return Failure(TicketNotFound), recorded;
      }
      var vehicle := repository.FindVehicleByPlate(plate);
      if vehicle.None? {
        return Failure(VehicleNotFound), recorded;
      }
      var fee;
      fee, recorded := billingService.CalculateFee(vehicle.value, now, ticket.value.entryTime);
      RecordPayment(plate, vehicle.value.hasMonthlyCard && fee > 0, GetCurrentMonth(now));
      repository.RemoveTicket(plate.value);
      return Success(fee), recorded;
    }

    /** `checkOutSimulation(plate, months, days)`: as `checkOut`, but the ticket's entry
        time is first moved `months * 30 + days` days (an `int`, wrapping) before
        `now`, the fee follows the simulation rule, and a charged monthly card is
        booked for the month of `simulatedCheckout`, the reading `months` months and
        `days` days before now (calendar arithmetic is the caller's). */
    method CheckOutSimulation(plate: Option<string>, months: int, days: int, now: DateTime, simulatedCheckout: DateTime)
      returns (r: Outcome<int>)
      requires Valid()
      requires IsInt32(months) && IsInt32(days)
      modifies repository, if plate.Some? && plate.value in repository.tickets then {repository.tickets[plate.value]} else {}
      ensures old(repository.Linked()) ==> repository.Linked()
      ensures old(repository.Storable()) ==> repository.Storable()
      ensures r.Failure? <==> plate.None? || plate.value !in old(repository.tickets) ||
                              plate.value !in old(repository.vehicles)
      ensures r.Failure? ==>
                r.error == (if plate.None? || plate.value !in old(repository.tickets) then TicketNotFound
                            else VehicleNotFound) &&
                repository.tickets == old(repository.tickets) && repository.vehicles == old(repository.vehicles) &&
                repository.lastPaid == old(repository.lastPaid) && repository.paymentLog == old(repository.paymentLog)
      ensures r.Success? ==>
                var p := plate.value;
                var t := old(repository.tickets[p]);
                var v := old(repository.vehicles[p]);
                t.entryTime == now.hour - 24 * SimulatedDays(months, days) &&
                t.plate == old(t.plate) && t.isMonthlyTicket == old(t.isMonthlyTicket) && t.zone == old(t.zone) &&
                SimulationFeeRule(v.vtype, v.hasMonthlyCard, v.plate, old(repository.paymentLog),
                                  months, days, simulatedCheckout, r.value) &&
                repository.tickets == old(repository.tickets) - {p} &&
                repository.vehicles == old(repository.vehicles) &&
                var charged := v.hasMonthlyCard && r.value > 0 && p != "";
                repository.lastPaid ==
                  (if charged then old(repository.lastPaid)[p := GetCurrentMonth(simulatedCheckout)]
                   else old(repository.lastPaid)) &&
                repository.paymentLog ==
                  (if charged then AppendPayment(old(repository.paymentLog), p, GetCurrentMonth(simulatedCheckout))
                   else old(repository.paymentLog))
    {
      var ticket := repository.FindTicketByPlate(plate);
      if ticket.None? {
        return Failure(TicketNotFound);
      }
      var vehicle := repository.FindVehicleByPlate(plate);
      if vehicle.None? {
        return Failure(VehicleNotFound);
      }
      var totalDays := SimulatedDays(months, days);
      Backdate(ticket.value, now.hour - 24 * totalDays);
      var fee := billingService.CalculateSimulationFee(vehicle.value, months, days, simulatedCheckout,
                                                       now.hour - 24 * totalDays);
      RecordPayment(plate, vehicle.value.hasMonthlyCard && fee > 0, GetCurrentMonth(simulatedCheckout));
      repository.RemoveTicket(plate.value);
      return Success(fee);
    }

    /** `processLostTicket`: as `checkOut`, but the amount due is the lost-ticket
        fine plus the parking fee; whether a monthly card is booked depends on the
        parking fee alone. */
    method ProcessLostTicket(plate: Option<string>, now: DateTime) returns (r: Outcome<int>, ghost recorded: Option<string>)
      requires Valid()
      modifies repository
      ensures old(repository.Linked()) ==> repository.Linked()
      ensures old(repository.Storable()) ==> repository.Storable()
      ensures r.Failure? <==> plate.None? || plate.value !in old(repository.tickets) ||
                              plate.value !in old(repository.vehicles)
      ensures r.Failure? ==>
                r.error == (if plate.None? || plate.value !in old(repository.tickets) then TicketNotFound
                            else VehicleNotFound) &&
                repository.tickets == old(repository.tickets) && repository.vehicles == old(repository.vehicles) &&
                repository.lastPaid == old(repository.lastPaid) && repository.paymentLog == old(repository.paymentLog)
      ensures r.Success? ==>
                var p := plate.value;
                var v := old(repository.vehicles[p]);
                r.value >= LostTicketFine &&
                FeeRule(v.vtype, v.hasMonthlyCard, v.plate, old(repository.lastPaid),
                        old(repository.paymentLog), now, old(repository.tickets[p].entryTime),
                        recorded, r.value - LostTicketFine) &&
                repository.tickets == old(repository.tickets) - {p} &&
                repository.vehicles == old(repository.vehicles) &&
                var charged := v.hasMonthlyCard && r.value > LostTicketFine && p != "";
                repository.lastPaid ==
                  (if charged then old(repository.lastPaid)[p := GetCurrentMonth(now)] else old(repository.lastPaid)) &&
                repository.paymentLog ==
                  (if charged then AppendPayment(old(repository.paymentLog), p, GetCurrentMonth(now))
                   else old(repository.paymentLog))
    {
      recorded := None;
      var ticket := repository.FindTicketByPlate(plate);
      if ticket.None? {
        return Failure(TicketNotFound), recorded;
      }
      var vehicle := repository.FindVehicleByPlate(plate);
      if vehicle.None? {
        return Failure(VehicleNotFound), recorded;
      }
      var parkingFee;
      parkingFee, recorded := billingService.CalculateFee(vehicle.value, now, ticket.value.entryTime);
      FeeRuleShape(vehicle.value.vtype, vehicle.value.hasMonthlyCard, vehicle.value.plate,
                   repository.lastPaid, repository.paymentLog, now,
                   ticket.value.entryTime, recorded, parkingFee);
      RecordPayment(plate, vehicle.value.hasMonthlyCard && parkingFee > 0, GetCurrentMonth(now));
      var totalFee := LostTicketFine + parkingFee;
      repository.RemoveTicket(plate.value);
      return Success(totalFee), recorded;
    }

    /** A monthly-card vehicle checks out, enters again and checks out again in the
        same month. Every step succeeds, and the second checkout is free when the
        first one charged the card (the payment is logged under the plate) or when
        the ledger has a single answer for the plate (the first checkout, free, found
        the month already paid). A plate must be non-empty and comma-free for its
        payment to be booked and read back. */
    method CheckOutCheckInCheckOut(plate: string, now1: DateTime, reentry: int, now2: DateTime)
      returns (first: Outcome<int>, again: Outcome<Ticket>, second: Outcome<int>)
      requires Valid()
      requires plate != "" && ',' !in plate
      requires plate in repository.tickets && plate in repository.vehicles
      requires repository.vehicles[plate].plate == plate && repository.vehicles[plate].hasMonthlyCard
      requires NormalizesApart(repository.tickets.Keys)
      requires now1.month == now2.month && now1.year == now2.year
      modifies repository
      ensures first.Success? && again.Success? && second.Success?
      ensures first.value > 0 || NormalizesApart(old(repository.lastPaid).Keys) ==> second.value == 0
    {
      var vehicle := repository.vehicles[plate];
      ghost var ledger, log := repository.lastPaid, repository.paymentLog;
      ghost var recorded1, recorded2;
      first, recorded1 := CheckOut(Some(plate), now1);
      assert !HasAlikeKey(repository.tickets.Keys, Some(plate)) by {
        forall k | k in repository.tickets.Keys
          ensures NormalizePlate(Some(k)) != NormalizePlate(Some(plate))
        {
          assert k in old(repository.tickets) && k != plate;
        }
      }
      again := CheckIn(vehicle, reentry);
      second, recorded2 := CheckOut(Some(plate), now2);
      SameMonthToken(now1, now2);
      if vehicle.vtype != BICYCLE {
        if first.value > 0 {
          SecondMonthlyCheckoutFree(vehicle.vtype, plate, ledger, log, now1, now2, reentry, recorded2, second.value);
        } else if NormalizesApart(ledger.Keys) {
          LastPaidAnswerUnique(ledger, plate, recorded1, recorded2);
        }
      }
    }
  }
}
