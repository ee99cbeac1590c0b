/**
 * The fee rules of the parking lot (service/BillingService.java).
 *
 * Bicycles park for free. A monthly-card vehicle pays the monthly fee at most
 * once per "MM/yyyy" month: nothing when the payment log or the last-paid ledger
 * already records that month. A single-use ticket is free for its first day and
 * then costs one day's fee per started day. The simulated checkout has its own
 * rule: every simulated day is charged, and the monthly branch consults only the log.
 *
 * Time is a clock reading of whole hours since a fixed epoch, together with the
 * calendar month and year of that hour; the hours between two readings are the
 * difference of their hour counts.
 */
module Billing {
  import opened Wrappers
  import opened JavaStrings
  import opened Vehicles
  import opened Repository

  /** the first 24 hours are free */
  const FreeHours: int := 24
  /** each further started day costs 5,000 */
  const FeePerDay: int := 5000
  /** one month of a monthly card costs 50,000 */
  const MonthlyTicketFee: int := 50000

  /** A clock reading: whole hours since the epoch, and the month and year they fall in. */
  datatype Clock = Clock(hour: int, month: int, year: int)

  /** The readings `LocalDateTime` can format as "MM/yyyy" without a sign. */
  type DateTime = c: Clock | 1 <= c.month <= 12 && 1 <= c.year <= 9999 witness Clock(0, 1, 1970)

  // ------------------------------------------------------------ the month token

  /** `getCurrentMonth`: the month as two digits, a slash, the year as four digits. */
  function GetCurrentMonth(d: DateTime): (m: string)
    ensures |m| == 7 && m[2] == '/'
    ensures AllDigits(m[..2]) && DigitsValue(m[..2]) == d.month
    ensures AllDigits(m[3..]) && DigitsValue(m[3..]) == d.year
  {
    var mm := ZeroPad(d.month, 2);
    var yyyy := ZeroPad(d.year, 4);
    assert |mm| == 2 by {
      assert Pow10(2) == 100;
      NatToStringLength(d.month, 2);
    }
    assert |yyyy| == 4 by {
      assert Pow10(4) == 10000;
      NatToStringLength(d.year, 4);
    }
    ZeroPadValue(d.month, 2);
    ZeroPadValue(d.year, 4);
    var m := mm + "/" + yyyy;
    assert m[..2] == mm && m[3..] == yyyy;
    m
  }

  /** Two readings give the same token exactly when they fall in the same month of
      the same year. */
  lemma SameMonthToken(a: DateTime, b: DateTime)
    ensures GetCurrentMonth(a) == GetCurrentMonth(b) <==> a.month == b.month && a.year == b.year
  {
    var ma, mb := GetCurrentMonth(a), GetCurrentMonth(b);
    if ma == mb {
      assert ma[..2] == mb[..2] && ma[3..] == mb[3..];
    }
  }

  /** The token is a non-empty field without commas or surrounding blanks, so the
      payment log and the data file keep it as it is. */
  lemma MonthTokenStorable(d: DateTime)
    ensures GetCurrentMonth(d) != "" && ',' !in GetCurrentMonth(d) && IsTrimmed(GetCurrentMonth(d))
  {
    var m := GetCurrentMonth(d);
    forall i | 0 <= i < |m| ensures m[i] != ',' && (i == 0 || i == 6 ==> !IsTrimmable(m[i])) {
      if i < 2 {
        assert m[i] == m[..2][i];
      } else if i > 2 {
        assert m[i] == m[3..][i - 3];
      }
    }
  }

  // --------------------------------------------------------- single-use tickets

  /** `calculateGuestTicketFee` on the whole hours parked: nothing up to 24 hours
      (negative durations included); beyond that the number of started days, less
      the free first one, times the daily fee. `fee / FeePerDay` is the number of
      charged days: the hours exceed that many days and fit in one more. */
  function GuestTicketFee(hours: int): (fee: int)
    ensures fee >= 0 && fee % FeePerDay == 0
    ensures hours <= FreeHours ==> fee == 0
    ensures hours > FreeHours ==>
              FreeHours * (fee / FeePerDay) < hours <= FreeHours * (fee / FeePerDay + 1)
  {
    if hours <= FreeHours then 0
    else
      // Math.ceil(hours / 24.0); the source's second free-day test, totalDays <= 1,
      // cannot hold once hours exceed 24
      var totalDays := (hours + 23) / 24;
      assert 24 * totalDays <= hours + 23 < 24 * totalDays + 24;
      (totalDays - 1) * FeePerDay
  }

  /** The worked examples of the rule: 24h is free, 25h and 48h cost one day, 49h two. */
  lemma GuestFeeExamples()
    ensures GuestTicketFee(-5) == 0 && GuestTicketFee(24) == 0
    ensures GuestTicketFee(25) == 5000 && GuestTicketFee(48) == 5000
    ensures GuestTicketFee(49) == 10000
  {
  }

  /** Parking longer never costs less. */
  lemma GuestFeeMonotone(h1: int, h2: int)
    requires h1 <= h2
    ensures GuestTicketFee(h1) <= GuestTicketFee(h2)
  {
    var d1, d2 := GuestTicketFee(h1) / FeePerDay, GuestTicketFee(h2) / FeePerDay;
    if h1 > FreeHours {
      assert FreeHours * d1 < h2 <= FreeHours * (d2 + 1);
      assert d1 <= d2;
    }
  }

  // ------------------------------------------------------------ monthly cards

  /** `calculateMonthlyTicketFee` once its two lookups are made: nothing when the log
      records the month or the ledger answers exactly the month, the monthly fee
      otherwise (a null ledger answer never matches). */
  function MonthlyFee(paidInLog: bool, recorded: Option<string>, currentMonth: string): (fee: int)
    ensures fee == 0 <==> paidInLog || recorded == Some(currentMonth)
    ensures fee == 0 || fee == MonthlyTicketFee
  {
    if paidInLog then 0
    else if recorded == Some(currentMonth) then 0
    else MonthlyTicketFee
  }

  /** Once a payment for a plate and month is in the log, the monthly fee for that
      plate and month is nothing, whatever the ledger answers. */
  lemma LoggedMonthIsFree(log: seq<string>, plate: string, d: DateTime, recorded: Option<string>)
    requires plate != "" && ',' !in plate
    ensures MonthlyFee(PaidInLog(AppendPayment(log, plate, GetCurrentMonth(d)), Some(plate),
                                 Some(GetCurrentMonth(d))), recorded, GetCurrentMonth(d)) == 0
  {
    MonthTokenStorable(d);
    PaymentRecordedIsSeen(log, plate, GetCurrentMonth(d));
  }

  // -------------------------------------------------------- simulated checkout

  const Int32Min: int := -0x8000_0000
  const Int32Max: int := 0x7FFF_FFFF

  predicate IsInt32(x: int)
  {
    Int32Min <= x <= Int32Max
  }

  /** Java `int` arithmetic: the value taken modulo 2^32 into the signed range. */
  function Wrap32(x: int): (r: int)
    ensures IsInt32(r)
    ensures (r - x) % 0x1_0000_0000 == 0
    ensures IsInt32(x) ==> r == x
  {
    (x - Int32Min) % 0x1_0000_0000 + Int32Min
  }

  /** `int totalDays = (monthsPassed * 30) + extraDays`, with Java's wrap-around. */
  function SimulatedDays(monthsPassed: int, extraDays: int): (totalDays: int)
    requires IsInt32(monthsPassed) && IsInt32(extraDays)
    ensures IsInt32(totalDays)
    ensures IsInt32(monthsPassed * 30) && IsInt32(monthsPassed * 30 + extraDays) ==>
              totalDays == monthsPassed * 30 + extraDays
  {
    Wrap32(Wrap32(monthsPassed * 30) + extraDays)
  }

  /** The single-use branch of `calculateSimulationFee`: every simulated day is
      charged; a total of zero days or fewer costs nothing. */
  function SimulationGuestFee(totalDays: int): (fee: int)
    ensures fee >= 0 && fee % FeePerDay == 0
    ensures fee == 0 <==> totalDays <= 0
    ensures totalDays > 0 ==> fee / FeePerDay == totalDays
  {
    if totalDays <= 0 then 0 else totalDays * FeePerDay
  }

  /** Against the real-time rule, a simulated stay of `days` whole days pays for one
      day more: the simulation has no free first day. */
  lemma SimulationChargesFirstDay(days: int)
    requires days >= 1
    ensures SimulationGuestFee(days) == GuestTicketFee(FreeHours * days) + FeePerDay
  {
    var fee := GuestTicketFee(FreeHours * days);
    if days > 1 {
      var charged := fee / FeePerDay;
      assert FreeHours * charged < FreeHours * days <= FreeHours * (charged + 1);
      assert charged == days - 1;
    }
  }

  /** A large month count wraps the day total to a negative `int`, and the stay is
      then charged nothing: 71,582,789 months are 2,147,483,670 days, just past the
      largest `int`. */
  lemma SimulationOverflowWaivesFee()
    ensures 71582789 * 30 > Int32Max
    ensures SimulatedDays(71582789, 0) < 0
    ensures SimulationGuestFee(SimulatedDays(71582789, 0)) == 0
  {
    assert Wrap32(71582789 * 30) == 71582789 * 30 - 0x1_0000_0000;
  }

  // ---------------------------------------------------------- the two rules

  /** The charge of `calculateFee` for a vehicle of kind `vtype` with plate `plate`,
      given the ledger and the log it reads and `recorded`, the ledger's answer for
      the plate: bicycles pay nothing; monthly cards pay the monthly fee for the
      checkout month, whatever the entry time; single-use tickets pay by the hours
      parked. */
  ghost predicate FeeRule(vtype: VehicleType, monthly: bool, plate: string, ledger: map<string, string>,
                          log: seq<string>, checkoutTime: DateTime, entryHour: int,
                          recorded: Option<string>, fee: int)
  {
    if vtype == BICYCLE then fee == 0
    else if monthly then
      LastPaidAnswer(ledger, Some(plate), recorded) &&
      fee == MonthlyFee(PaidInLog(log, Some(plate), Some(GetCurrentMonth(checkoutTime))),
                        recorded, GetCurrentMonth(checkoutTime))
    else fee == GuestTicketFee(checkoutTime.hour - entryHour)
  }

  /** The charge of `calculateSimulationFee`: bicycles pay nothing; a monthly card
      pays unless the log records the simulated checkout month (the ledger is not
      consulted, as if it answered null); a single-use ticket pays every simulated
      day. The entry time is not used. */
  ghost predicate SimulationFeeRule(vtype: VehicleType, monthly: bool, plate: string, log: seq<string>,
                                    monthsPassed: int, extraDays: int, checkoutTime: DateTime, fee: int)
    requires IsInt32(monthsPassed) && IsInt32(extraDays)
  {
    if vtype == BICYCLE then fee == 0
    else if monthly then
      fee == MonthlyFee(PaidInLog(log, Some(plate), Some(GetCurrentMonth(checkoutTime))),
                        None, GetCurrentMonth(checkoutTime))
    else fee == SimulationGuestFee(SimulatedDays(monthsPassed, extraDays))
  }

  /** Every charge is nothing, the monthly fee, or a whole number of days; a bicycle
      is never charged. */
  lemma FeeRuleShape(vtype: VehicleType, monthly: bool, plate: string, ledger: map<string, string>,
                     log: seq<string>, checkoutTime: DateTime, entryHour: int,
                     recorded: Option<string>, fee: int)
    requires FeeRule(vtype, monthly, plate, ledger, log, checkoutTime, entryHour, recorded, fee)
    ensures fee >= 0 && fee % FeePerDay == 0
    ensures vtype == BICYCLE ==> fee == 0
    ensures vtype != BICYCLE && monthly ==> fee == 0 || fee == MonthlyTicketFee
  {
    if vtype == BICYCLE {
    } else if monthly {
      assert fee == 0 || fee == MonthlyTicketFee;
    } else {
      assert fee == GuestTicketFee(checkoutTime.hour - entryHour);
    }
  }

  /** A monthly card's charge depends on the month of checkout alone: not on when
      the vehicle entered, nor on the hour within the month. */
  lemma MonthlyFeeByMonth(vtype: VehicleType, plate: string, ledger: map<string, string>,
                          log: seq<string>, checkout1: DateTime, checkout2: DateTime, entry1: int, entry2: int,
                          recorded: Option<string>, fee1: int, fee2: int)
    requires checkout1.month == checkout2.month && checkout1.year == checkout2.year
    requires FeeRule(vtype, true, plate, ledger, log, checkout1, entry1, recorded, fee1)
    requires FeeRule(vtype, true, plate, ledger, log, checkout2, entry2, recorded, fee2)
    ensures fee1 == fee2
  {
    SameMonthToken(checkout1, checkout2);
  }

  /** With a ledger whose keys normalise apart, the charge is determined: the ledger
      has one answer for the plate. */
  lemma FeeRuleDeterministic(vtype: VehicleType, monthly: bool, plate: string, ledger: map<string, string>,
                             log: seq<string>, checkoutTime: DateTime, entryHour: int,
                             r1: Option<string>, fee1: int, r2: Option<string>, fee2: int)
    requires NormalizesApart(ledger.Keys)
    requires FeeRule(vtype, monthly, plate, ledger, log, checkoutTime, entryHour, r1, fee1)
    requires FeeRule(vtype, monthly, plate, ledger, log, checkoutTime, entryHour, r2, fee2)
    ensures fee1 == fee2
  {
    if vtype != BICYCLE && monthly {
      LastPaidAnswerUnique(ledger, plate, r1, r2);
    }
  }

  /** Every simulated charge is nothing, the monthly fee, or five thousand per
      simulated day; a bicycle is never charged. */
  lemma SimulationFeeShape(vtype: VehicleType, monthly: bool, plate: string, log: seq<string>,
                           monthsPassed: int, extraDays: int, checkoutTime: DateTime, fee: int)
    requires IsInt32(monthsPassed) && IsInt32(extraDays)
    requires SimulationFeeRule(vtype, monthly, plate, log, monthsPassed, extraDays, checkoutTime, fee)
    ensures fee >= 0 && fee % FeePerDay == 0
    ensures vtype == BICYCLE ==> fee == 0
    ensures vtype != BICYCLE && monthly ==> fee == 0 || fee == MonthlyTicketFee
    ensures vtype != BICYCLE && !monthly ==>
              fee == if SimulatedDays(monthsPassed, extraDays) <= 0 then 0
                     else FeePerDay * SimulatedDays(monthsPassed, extraDays)
  {
    if vtype != BICYCLE && monthly {
      assert fee == 0 || fee == MonthlyTicketFee;
    } else if vtype != BICYCLE {
      assert fee == SimulationGuestFee(SimulatedDays(monthsPassed, extraDays));
    }
  }

  // ------------------------------------------------------------ the service

  /** The billing service, reading the store it was built with. Its methods change
      nothing: they have no `modifies` clause. */
  class BillingService {
    const repository: ParkingRepository

    constructor (repository: ParkingRepository)
      ensures this.repository == repository
    {
      this.repository := repository;
    }

    /** `calculateMonthlyTicketFee`: looks up the ledger (`recorded` is its answer)
        and the payment log for the checkout month. */
    method CalculateMonthlyTicketFee(plate: string, checkoutTime: DateTime)
      returns (fee: int, ghost recorded: Option<string>)
      ensures LastPaidAnswer(repository.lastPaid, Some(plate), recorded)
      ensures fee == MonthlyFee(PaidInLog(repository.paymentLog, Some(plate), Some(GetCurrentMonth(checkoutTime))),
                                recorded, GetCurrentMonth(checkoutTime))
    {
      var currentMonth := GetCurrentMonth(checkoutTime);
      var recordedMonth := repository.GetLastPaidMonth(Some(plate));
      recorded := recordedMonth;
      var paid := repository.HasPaidMonthly(Some(plate), Some(currentMonth));
      if paid {
        return 0, recorded;
      }
      if recordedMonth == Some(currentMonth) {
        return 0, recorded;
      }
      return MonthlyTicketFee, recorded;
    }

    /** `calculateFee(vehicle, checkoutTime, entryTime)`: the charge the fee rule
        gives on the store's ledger and log; `recorded` is the ledger's answer. */
    method CalculateFee(vehicle: Vehicle, checkoutTime: DateTime, entryHour: int)
      returns (fee: int, ghost recorded: Option<string>)
      ensures FeeRule(vehicle.vtype, vehicle.hasMonthlyCard, vehicle.plate, repository.lastPaid,
                      repository.paymentLog, checkoutTime, entryHour, recorded, fee)
    {
      recorded := None;
      if vehicle.vtype == BICYCLE {
        return 0, recorded;
      }
      if vehicle.hasMonthlyCard {
        fee, recorded := CalculateMonthlyTicketFee(vehicle.plate, checkoutTime);
        return;
      }
      fee := GuestTicketFee(checkoutTime.hour - entryHour);
    }

    /** `calculateSimulationFee`: the charge the simulation rule gives on the store's
        log. */
    method CalculateSimulationFee(vehicle: Vehicle, monthsPassed: int, extraDays: int,
                                  checkoutTime: DateTime, entryHour: int) returns (fee: int)
      requires IsInt32(monthsPassed) && IsInt32(extraDays)
      ensures SimulationFeeRule(vehicle.vtype, vehicle.hasMonthlyCard, vehicle.plate, repository.paymentLog,
                                monthsPassed, extraDays, checkoutTime, fee)
    {
      if vehicle.vtype == BICYCLE {
        return 0;
      }
      if vehicle.hasMonthlyCard {
        var currentMonth := GetCurrentMonth(checkoutTime);
        var paid := repository.HasPaidMonthly(Some(vehicle.plate), Some(currentMonth));
        if paid {
          return 0;
        }
        return MonthlyTicketFee;
      }
      var totalDays := SimulatedDays(monthsPassed, extraDays);
      if totalDays <= 0 {
        return 0;
      }
      return totalDays * FeePerDay;
    }
  }
}
