/**
 * A parking slot (model/ParkingSlot.java): an id, a zone, and the vehicle in it.
 * The slot is meant to be occupied exactly when it holds a vehicle.
 */
module ParkingSlots {
  import opened Vehicles

  class ParkingSlot {
    var slotId: string
    var zone: string
    var isOccupied: bool
    var vehicle: Vehicle?

    /** The occupied flag agrees with the presence of a vehicle. */
    predicate Consistent()
      reads this
    {
      isOccupied <==> vehicle != null
    }

    /** A new slot is empty. */
    constructor (slotId: string, zone: string)
      ensures this.slotId == slotId && this.zone == zone
      ensures !isOccupied && vehicle == null
      ensures Consistent()
    {
      this.slotId := slotId;
      this.zone := zone;
      this.isOccupied := false;
      this.vehicle := null;
    }

    method SetSlotId(slotId: string)
      modifies this
      ensures this.slotId == slotId
      ensures zone == old(zone) && isOccupied == old(isOccupied) && vehicle == old(vehicle)
    {
      this.slotId := slotId;
    }

    method SetZone(zone: string)
      modifies this
      ensures this.zone == zone
      ensures slotId == old(slotId) && isOccupied == old(isOccupied) && vehicle == old(vehicle)
    {
      this.zone := zone;
    }

    /** Sets the flag alone: it keeps the slot consistent only when the flag already
        agrees with the vehicle, so this setter can break the invariant. */
    method SetOccupied(isOccupied: bool)
      modifies this
      ensures this.isOccupied == isOccupied
      ensures slotId == old(slotId) && zone == old(zone) && vehicle == old(vehicle)
      ensures Consistent() <==> (isOccupied <==> old(vehicle) != null)
    {
      this.isOccupied := isOccupied;
    }

    /** Parks `vehicle` (or empties the slot for null), keeping the flag in step. */
    method SetVehicle(vehicle: Vehicle?)
      modifies this
      ensures this.vehicle == vehicle && (isOccupied <==> vehicle != null)
      ensures slotId == old(slotId) && zone == old(zone)
      ensures Consistent()
    {
      this.vehicle := vehicle;
      this.isOccupied := vehicle != null;
    }

    /** Empties the slot. */
    method Release()
      modifies this
      ensures vehicle == null && !isOccupied
      ensures slotId == old(slotId) && zone == old(zone)
      ensures Consistent()
    {
      this.vehicle := null;
      this.isOccupied := false;
    }
  }
}
