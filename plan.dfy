/**
 * The production plan handed to `validate` (src/validator.py:44-56) and the
 * structured violation records it reports.
 *
 * Sections absent from the document are empty sequences here, which is what
 * the chained `plan.get(..., {})` / `.get(..., [])` calls produce.
 */
module Plan {
  import opened Wrappers
  import opened Timestamps

  /** A demand line of `inputs.product_orders`. */
  datatype Order = Order(productCode: string, quantityKg: real)

  /** A record of `inputs.equipment`; a capacity whose key is absent is `None`, an absent code list is empty. */
  datatype Equipment = Equipment(
    equipmentId: string,
    minCapacityKg: Option<real>,
    maxCapacityKg: Option<real>,
    productCodes: seq<string>)

  /** A record of `inputs.constraints.downtimes`. */
  datatype Downtime = Downtime(equipmentId: string, startTime: Stamp, endTime: Stamp, downtimeId: string)

  /** A record of `inputs.constraints.holidays`; holidays apply to every equipment. */
  datatype Holiday = Holiday(startTime: Stamp, endTime: Stamp, holidayName: string)

  /** A record of `outputs.production_batches`. */
  datatype Batch = Batch(
    batchId: string,
    productCode: string,
    quantityKg: real,
    equipmentId: string,
    startTime: Stamp,
    endTime: Stamp)

  datatype Plan = Plan(
    orders: seq<Order>,
    equipment: seq<Equipment>,
    downtimes: seq<Downtime>,
    holidays: seq<Holiday>,
    batches: seq<Batch>)

  /** One reported violation: its kind, the identifiers involved and the offending values. */
  datatype Error =
    // batch time sanity (lines 61-70)
    | MissingTime(batchId: string)
    | BadTimeFormat(batchId: string)
    | StartNotBeforeEnd(batchId: string, startText: Stamp, endText: Stamp)
    // quantity conservation (lines 74-88)
    | QuantityMismatch(productCode: string, orderedKg: real, producedKg: real)
    // equipment sizing and compatibility (lines 94-111)
    | UnknownEquipment(batchId: string, equipmentId: string)
    | UnsupportedProduct(batchId: string, productCode: string, equipmentId: string, allowed: seq<string>)
    | BelowMinCapacity(batchId: string, quantityKg: real, minKg: real, equipmentId: string)
    | AboveMaxCapacity(batchId: string, quantityKg: real, maxKg: real, equipmentId: string)
    // downtime and holiday conflicts (lines 116-139)
    | DowntimeConflict(batchId: string, start: int, end: int, downtimeId: string,
                       equipmentId: string, windowStart: int, windowEnd: int)
    | HolidayConflict(batchId: string, start: int, end: int, holidayName: string,
                      windowStart: int, windowEnd: int)
    // equipment double-booking (lines 142-158)
    | DoubleBooking(equipmentId: string, firstBatch: string, firstEnd: int,
                    nextBatch: string, nextStart: int)
}
