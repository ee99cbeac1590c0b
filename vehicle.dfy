/**
 * The vehicle record (model/Vehicle.java) with its two enumerations: the vehicle
 * category (VehicleType: CAR, BIKE, BICYCLE) and the fuel kind (model/FuelType.java).
 * The Car, Motorbike and Bicycle subclasses only fix the category, so they are
 * folded into the `vtype` field.
 */
module Vehicles {
  import opened Wrappers
  import opened JavaStrings

  datatype VehicleType = CAR | BIKE | BICYCLE

  datatype FuelType = GASOLINE | ELECTRIC | NONE

  /** `VehicleType.name()` */
  function TypeName(t: VehicleType): string
  {
    match t
    case CAR => "CAR"
    case BIKE => "BIKE"
    case BICYCLE => "BICYCLE"
  }

  /** `FuelType.name()` */
  function FuelName(f: FuelType): string
  {
    match f
    case GASOLINE => "GASOLINE"
    case ELECTRIC => "ELECTRIC"
    case NONE => "NONE"
  }

  /** `VehicleType.valueOf(s)`: `None` where Java throws IllegalArgumentException. */
  function ParseType(s: string): (r: Option<VehicleType>)
    ensures forall t :: r == Some(t) <==> s == TypeName(t)
  {
    if s == "CAR" then Some(CAR)
    else if s == "BIKE" then Some(BIKE)
    else if s == "BICYCLE" then Some(BICYCLE)
    else None
  }

  /** `FuelType.valueOf(s)`: `None` where Java throws IllegalArgumentException. */
  function ParseFuel(s: string): (r: Option<FuelType>)
    ensures forall f :: r == Some(f) <==> s == FuelName(f)
  {
    if s == "GASOLINE" then Some(GASOLINE)
    else if s == "ELECTRIC" then Some(ELECTRIC)
    else if s == "NONE" then Some(NONE)
    else None
  }

  /** The ticket-kind token written to CSV rows. */
  function TicketKind(monthly: bool): string
  {
    if monthly then "MONTHLY" else "SINGLE"
  }

  /** A nullable month written as a CSV field: `null` becomes the empty field. */
  function MonthField(m: Option<string>): string
  {
    match m
    case None => ""
    case Some(s) => s
  }

  class Vehicle {
    var plate: string
    var vtype: VehicleType
    var fuelType: FuelType
    var hasMonthlyCard: bool
    /** "MM/yyyy" of the last monthly payment, or null */
    var lastPaidMonth: Option<string>

    /** The four-argument constructor: no month paid yet. */
    constructor (plate: string, vtype: VehicleType, fuelType: FuelType, hasMonthlyCard: bool)
      ensures this.plate == plate && this.vtype == vtype && this.fuelType == fuelType
      ensures this.hasMonthlyCard == hasMonthlyCard && this.lastPaidMonth == None
    {
      this.plate := plate;
      this.vtype := vtype;
      this.fuelType := fuelType;
      this.hasMonthlyCard := hasMonthlyCard;
      this.lastPaidMonth := None;
    }

    /** The five-argument constructor. */
    constructor WithLastPaidMonth(plate: string, vtype: VehicleType, fuelType: FuelType,
                                  hasMonthlyCard: bool, lastPaidMonth: Option<string>)
      ensures this.plate == plate && this.vtype == vtype && this.fuelType == fuelType
      ensures this.hasMonthlyCard == hasMonthlyCard && this.lastPaidMonth == lastPaidMonth
    {
      this.plate := plate;
      this.vtype := vtype;
      this.fuelType := fuelType;
      this.hasMonthlyCard := hasMonthlyCard;
      this.lastPaidMonth := lastPaidMonth;
    }

    method SetPlate(plate: string)
      modifies this
      ensures this.plate == plate
      ensures vtype == old(vtype) && fuelType == old(fuelType)
      ensures hasMonthlyCard == old(hasMonthlyCard) && lastPaidMonth == old(lastPaidMonth)
    {
      this.plate := plate;
    }

    method SetType(vtype: VehicleType)
      modifies this
      ensures this.vtype == vtype
      ensures plate == old(plate) && fuelType == old(fuelType)
      ensures hasMonthlyCard == old(hasMonthlyCard) && lastPaidMonth == old(lastPaidMonth)
    {
      this.vtype := vtype;
    }

    method SetFuelType(fuelType: FuelType)
      modifies this
      ensures this.fuelType == fuelType
      ensures plate == old(plate) && vtype == old(vtype)
      ensures hasMonthlyCard == old(hasMonthlyCard) && lastPaidMonth == old(lastPaidMonth)
    {
      this.fuelType := fuelType;
    }

    method SetHasMonthlyCard(hasMonthlyCard: bool)
      modifies this
      ensures this.hasMonthlyCard == hasMonthlyCard
      ensures plate == old(plate) && vtype == old(vtype)
      ensures fuelType == old(fuelType) && lastPaidMonth == old(lastPaidMonth)
    {
      this.hasMonthlyCard := hasMonthlyCard;
    }

    method SetLastPaidMonth(lastPaidMonth: Option<string>)
      modifies this
      ensures this.lastPaidMonth == lastPaidMonth
      ensures plate == old(plate) && vtype == old(vtype)
      ensures fuelType == old(fuelType) && hasMonthlyCard == old(hasMonthlyCard)
    {
      this.lastPaidMonth := lastPaidMonth;
    }

    /** The CSV line of this vehicle: type, plate, fuel, ticket kind, last paid month.
        As long as neither plate nor month holds a comma, splitting the line at its
        commas gives back exactly these five fields. */
    function ToCSV(): (line: string)
      reads this
      ensures ',' !in plate && ',' !in MonthField(lastPaidMonth) ==>
                Fields(line, ',') == [TypeName(vtype), plate, FuelName(fuelType),
                                      TicketKind(hasMonthlyCard), MonthField(lastPaidMonth)]
    {
      var fields := [TypeName(vtype), plate, FuelName(fuelType), TicketKind(hasMonthlyCard),
                     MonthField(lastPaidMonth)];
      assert ',' !in plate && ',' !in MonthField(lastPaidMonth) ==> Fields(Join(fields, ','), ',') == fields by {
        if ',' !in plate && ',' !in MonthField(lastPaidMonth) {
          FieldsOfJoin(fields, ',');
        }
      }
      Join(fields, ',')
    }
  }

  /** The ticket-kind field of `ToCSV` reads MONTHLY exactly for monthly-card holders. */
  lemma ToCsvTicketKind(v: Vehicle)
    requires ',' !in v.plate && ',' !in MonthField(v.lastPaidMonth)
    ensures |Fields(v.ToCSV(), ',')| == 5
    ensures Fields(v.ToCSV(), ',')[3] == "MONTHLY" <==> v.hasMonthlyCard
    ensures Fields(v.ToCSV(), ',')[4] == "" <==> v.lastPaidMonth.None? || v.lastPaidMonth == Some("")
  {
  }
}
