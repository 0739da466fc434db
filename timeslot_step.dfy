/** The timeslot picker of components/timeslot-step.tsx: the effect that
    loads the list for the chosen date and court (falling back to the
    placeholder slots), and the rule that turns each slot into a booked tile
    or a selectable one. */
module TimeslotStep {
  import opened JsValues
  import opened MockData
  import opened Api

  /** `typeof slot.available === "boolean" ? slot.available : !!slot.is_active` */
  predicate IsAvailable(slot: Value) {
    var available := Get(slot, "available");
    if available.Bool? then available.b else Truthy(Get(slot, "is_active"))
  }

  /** A boolean `available` decides the tile whatever `is_active` holds:
      `available: false` books an active slot, `available: true` offers an
      inactive one. */
  lemma ExplicitAvailabilityOverridesActive(fields: map<string, Value>, b: bool, active: Value,
                                            selectedTimeslotId: Value)
    ensures var slot := Obj(fields["is_active" := active]["available" := Bool(b)]);
            TileOf(slot, selectedTimeslotId).Booked? <==> !b
  {
  }

  /** Without a boolean `available` (absent, `null`, `"true"`, `1`), the
      tile is booked exactly when `is_active` is falsy. */
  lemma ActiveDecidesWithoutAvailable(slot: Value, selectedTimeslotId: Value)
    requires !Get(slot, "available").Bool?
    ensures TileOf(slot, selectedTimeslotId).Booked? <==> !Truthy(Get(slot, "is_active"))
  {
  }

  /** One tile of the grid. A booked tile has no click handler; a choice
      reports (id, start, end) to the wizard when clicked. */
  datatype Tile =
    | Booked(start: Value, end: Value)
    | Choice(selected: bool, start: Value, end: Value, reports: (Value, Value, Value))

  function TileOf(slot: Value, selectedTimeslotId: Value): (t: Tile)
    ensures t.Booked? <==> !IsAvailable(slot)
    ensures t.Choice? ==> t.selected == StrictEquals(selectedTimeslotId, Get(slot, "id"))
    ensures t.Choice? ==> t.reports == (Get(slot, "id"), Get(slot, "start_time"), Get(slot, "end_time"))
    ensures t.start == Get(slot, "start_time") && t.end == Get(slot, "end_time")
  {
    if !IsAvailable(slot) then Booked(Get(slot, "start_time"), Get(slot, "end_time"))
    else
      Choice(StrictEquals(selectedTimeslotId, Get(slot, "id")),
             Get(slot, "start_time"), Get(slot, "end_time"),
             (Get(slot, "id"), Get(slot, "start_time"), Get(slot, "end_time")))
  }

  /** `timeslots.length` */
  function LengthOf(v: Value): Value {
    match v
    case Arr(items) => Num(|items|)
    case Str(s) => Num(|s|)
    case Obj(_) => Get(v, "length")
    case _ => Undefined
  }

  /** What the step renders. `Broken` is a render that throws: `map` on a
      value that is not an array, or a property read on a nullish slot. */
  datatype View = Disabled | Loading | NoTimeslots | Grid(tiles: seq<Tile>) | Broken

  function ViewOf(disabled: bool, loading: bool, timeslots: Value, selectedTimeslotId: Value): (v: View)
    ensures v.Grid? ==> timeslots.Arr? && |v.tiles| == |timeslots.items|
                        && forall i | 0 <= i < |v.tiles| :: v.tiles[i] == TileOf(timeslots.items[i], selectedTimeslotId)
    ensures disabled ==> v == Disabled
    ensures !disabled && loading ==> v == Loading
    ensures !disabled && !loading && LengthOf(timeslots) == Num(0) ==> v == NoTimeslots
    ensures (!disabled && !loading && timeslots.Arr? && |timeslots.items| > 0
             && forall i | 0 <= i < |timeslots.items| :: !Nullish(timeslots.items[i])) ==> v.Grid?
    ensures v == Broken <==>
              !disabled && !loading && LengthOf(timeslots) != Num(0)
              && (!timeslots.Arr? || exists i | 0 <= i < |timeslots.items| :: Nullish(timeslots.items[i]))
  {
    if disabled then Disabled
    else if loading then Loading
    else if LengthOf(timeslots) == Num(0) then NoTimeslots
    else if !timeslots.Arr? then Broken
    else if exists i | 0 <= i < |timeslots.items| :: Nullish(timeslots.items[i]) then Broken
    else Grid(seq(|timeslots.items|, i requires 0 <= i < |timeslots.items| =>
                    TileOf(timeslots.items[i], selectedTimeslotId)))
  }

  /** In the grid, a tile is a marked choice exactly when its slot is
      available and its id is strictly equal to the selected id. */
  lemma SelectedTileIsTheChosenSlot(timeslots: Value, selectedTimeslotId: Value, i: nat)
    requires ViewOf(false, false, timeslots, selectedTimeslotId).Grid?
    requires i < |timeslots.items|
    ensures var t := ViewOf(false, false, timeslots, selectedTimeslotId).tiles[i];
            t.Choice? && t.selected
            <==> IsAvailable(timeslots.items[i])
                 && StrictEquals(selectedTimeslotId, Get(timeslots.items[i], "id"))
  {
  }

  /** The placeholder slots are all selectable, each is marked exactly when
      its id is the selected one, and each reports its own id and hours. */
  lemma MockSlotsAllSelectable(i: nat, selectedTimeslotId: Value)
    requires i < |MockTimeslots|
    ensures var t := TileOf(MockTimeslots[i], selectedTimeslotId);
            t.Choice? && (t.selected <==> StrictEquals(selectedTimeslotId, Num(i + 1)))
            && t.reports == (Num(i + 1), MockTimeslots[i].fields["start_time"],
                             MockTimeslots[i].fields["end_time"])
  {
    MockSlotTile(i + 1, MockStarts[i], MockEnds[i], selectedTimeslotId);
  }

  lemma MockSlotTile(id: int, start: string, end: string, selectedTimeslotId: Value)
    ensures var t := TileOf(MockSlot(id, start, end), selectedTimeslotId);
            t.Choice? && (t.selected <==> StrictEquals(selectedTimeslotId, Num(id)))
            && t.reports == (Num(id), Str(start), Str(end))
  {
  }

  /** The step's state hooks */
  class TimeslotPanel {
    var timeslots: Value
    var loading: bool

    constructor()
      ensures timeslots == Arr([]) && !loading
    {
      timeslots := Arr([]);
      loading := false;
    }

    /** The effect for `bookingDate` and `courtId` up to the request: nothing
        unless both are truthy; otherwise `loading` is set and the request
        for that date and court is made. */
    method StartFetch(bookingDate: Value, courtId: Value) returns (request: Option<Endpoint>)
      modifies this
      ensures request == None <==> !(Truthy(bookingDate) && Truthy(courtId))
      ensures request.Some? ==>
                request.value == GetTimeslots(ToStr(bookingDate), ToStr(courtId))
                && loading && timeslots == old(timeslots)
      ensures request.None? ==> loading == old(loading) && timeslots == old(timeslots)
    {
      if !Truthy(bookingDate) || !Truthy(courtId) {
        return None;
      }
      loading := true;
      request := Some(GetTimeslots(ToStr(bookingDate), ToStr(courtId)));
    }

    /** The effect once the request settles: a successful truthy list is
        kept (even an empty one), anything else shows the placeholder slots. */
    method FinishFetch(result: ApiResponse)
      modifies this
      ensures !loading
      ensures timeslots == if result.Success? && Truthy(result.data) then result.data
                           else Arr(MockTimeslots)
    {
      if result.Success? && Truthy(result.data) {
        timeslots := result.data;
      } else {
        timeslots := Arr(MockTimeslots);
      }
      loading := false;
    }

    function View(disabled: bool, selectedTimeslotId: Value): View
      reads this
    {
      ViewOf(disabled, loading, timeslots, selectedTimeslotId)
    }
  }

  /** The placeholder list, shown after a failed request or a falsy list,
      is a grid of eight selectable tiles. */
  lemma PlaceholderGridSelectable(selectedTimeslotId: Value)
    ensures var v := ViewOf(false, false, Arr(MockTimeslots), selectedTimeslotId);
            v.Grid? && |v.tiles| == 8 && forall i | 0 <= i < 8 :: v.tiles[i].Choice?
  {
    forall i | 0 <= i < |MockTimeslots|
      ensures !Nullish(MockTimeslots[i]) && TileOf(MockTimeslots[i], selectedTimeslotId).Choice?
    {
      MockSlotsAllSelectable(i, selectedTimeslotId);
    }
  }

  /** An empty list is a successful answer: it is kept and the step says that
      no timeslots are available. */
  lemma EmptyListShowsMessage(selectedTimeslotId: Value)
    ensures ViewOf(false, false, Arr([]), selectedTimeslotId) == NoTimeslots
  {
  }
}
