/**
 * The parking ticket (model/Ticket.java): an active session of one plate. Entry
 * times are whole hours since a fixed epoch.
 */
module Tickets {

  /** The zone labels a ticket is documented to carry. The class itself does not
      enforce them: the two places that create tickets do. */
  predicate IsZone(z: string)
  {
    z == "A1" || z == "A2" || z == "B"
  }

  class Ticket {
    var plate: string
    var entryTime: int
    var isMonthlyTicket: bool
    var zone: string

    constructor (plate: string, entryTime: int, isMonthlyTicket: bool, zone: string)
      ensures this.plate == plate && this.entryTime == entryTime
      ensures this.isMonthlyTicket == isMonthlyTicket && this.zone == zone
    {
      this.plate := plate;
      this.entryTime := entryTime;
      this.isMonthlyTicket := isMonthlyTicket;
      this.zone := zone;
    }

    method SetPlate(plate: string)
      modifies this
      ensures this.plate == plate
      ensures entryTime == old(entryTime) && isMonthlyTicket == old(isMonthlyTicket) && zone == old(zone)
    {
      this.plate := plate;
    }

    /** Rewrites the entry time; the simulated checkout uses it to move entry into the past. */
    method SetEntryTime(entryTime: int)
      modifies this
      ensures this.entryTime == entryTime
      ensures plate == old(plate) && isMonthlyTicket == old(isMonthlyTicket) && zone == old(zone)
    {
      this.entryTime := entryTime;
    }

    method SetMonthlyTicket(isMonthlyTicket: bool)
      modifies this
      ensures this.isMonthlyTicket == isMonthlyTicket
      ensures plate == old(plate) && entryTime == old(entryTime) && zone == old(zone)
    {
      this.isMonthlyTicket := isMonthlyTicket;
    }

    method SetZone(zone: string)
      modifies this
      ensures this.zone == zone
      ensures plate == old(plate) && entryTime == old(entryTime) && isMonthlyTicket == old(isMonthlyTicket)
    {
      this.zone := zone;
    }
  }
}
