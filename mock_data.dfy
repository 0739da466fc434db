/** The placeholder records the pages fall back to when the API gives nothing
    usable (lib/mock-data.ts). Only the two the modelled pages use are here. */
module MockData {
  import opened JsValues

  function MockSlot(id: int, start: string, end: string): Value {
    Obj(map["id" := Num(id), "start_time" := Str(start), "end_time" := Str(end),
            "is_active" := Bool(true)])
  }

  /** Eight active one-hour slots, 09:00 to 17:00, ids 1 to 8 */
  const MockStarts: seq<string> := ["09:00", "10:00", "11:00", "12:00", "13:00", "14:00", "15:00", "16:00"]
  const MockEnds: seq<string> := ["10:00", "11:00", "12:00", "13:00", "14:00", "15:00", "16:00", "17:00"]

  const MockTimeslots: seq<Value> :=
    seq(8, i requires 0 <= i < 8 => MockSlot(i + 1, MockStarts[i], MockEnds[i]))

  const MockReservation: Value := Obj(map[
    "id" := Str("RES-2025-001"),
    "court_id" := Num(1),
    "court_name" := Str("Court A"),
    "timeslot_id" := Num(1),
    "booking_date" := Str("2025-11-10"),
    "start_time" := Str("09:00"),
    "end_time" := Str("10:00"),
    "customer_name" := Str("John Doe"),
    "customer_email" := Str("john@example.com"),
    "customer_phone" := Str("08123456789"),
    "notes" := Str("Double match"),
    "total_price" := Num(150000),
    "status" := Str("pending"),
    "created_at" := Str("2025-11-07T10:00:00Z")
  ])
}
