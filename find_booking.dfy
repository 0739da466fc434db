/** The "Find My Booking" page of app/find-booking/page.tsx: the search handler,
    which validates the email, looks the reservations up, and fills in the
    start and end times of reservations that only carry a timeslot id from
    one timeslot list per (court, date) key; and the two status mappers. */
module FindBooking {
  import opened JsValues
  import opened MockData
  import opened Api
  import CustomerInfoStep

  const NoReservationsMessage := "No reservations found for this email address"

  // ---------------------------------------------------------------------
  // Status mappers
  // ---------------------------------------------------------------------

  predicate KnownStatus(status: string) {
    status in ["paid", "pending", "waiting_payment", "expired", "cancelled"]
  }

  /** `getStatusLabel` */
  function StatusLabel(status: string): (shown: string)
    ensures !KnownStatus(status) ==> shown == status
  {
    match status
    case "paid" => "Confirmed"
    case "pending" => "Pending"
    case "waiting_payment" => "Payment Required"
    case "expired" => "Expired"
    case "cancelled" => "Cancelled"
    case _ => status
  }

  const DefaultBadge := "bg-blue-100 text-blue-800"

  /** `getStatusBadgeClass` */
  function StatusBadgeClass(status: string): (cls: string)
    ensures !KnownStatus(status) ==> cls == DefaultBadge
  {
    match status
    case "paid" => "bg-green-100 text-green-800"
    case "pending" => "bg-yellow-100 text-yellow-800"
    case "waiting_payment" => "bg-orange-100 text-orange-800"
    case "expired" => "bg-red-100 text-red-800"
    case "cancelled" => "bg-gray-100 text-gray-800"
    case _ => DefaultBadge
  }

  /** A status is shown under its own name exactly when it is not one of the
      five the page knows, and only those five get a colour other than blue. */
  lemma StatusMappersFallBack(status: string)
    ensures StatusLabel(status) == status <==> !KnownStatus(status)
    ensures StatusBadgeClass(status) == DefaultBadge <==> !KnownStatus(status)
  {
  }

  /** Distinct known statuses get distinct labels and distinct colours. */
  lemma KnownStatusesDistinguished(s: string, t: string)
    requires KnownStatus(s) && KnownStatus(t) && s != t
    ensures StatusLabel(s) != StatusLabel(t)
    ensures StatusBadgeClass(s) != StatusBadgeClass(t)
  {
  }

  // ---------------------------------------------------------------------
  // The reservations that need their times filled in
  // ---------------------------------------------------------------------

  /** `Array.isArray(data) ? data : [data]` */
  function ReservationList(data: Value): seq<Value> {
    if data.Arr? then data.items else [data]
  }

  /** Missing a start or an end time, while timeslot, date and court are all
      present (truthy). The property reads throw on a nullish reservation,
      so this is only asked of values that are not. */
  predicate Selected(r: Value) {
    && (!Truthy(Get(r, "start_time")) || !Truthy(Get(r, "end_time")))
    && Truthy(Get(r, "timeslot_id"))
    && Truthy(Get(r, "booking_date"))
    && Truthy(Get(r, "court_id"))
  }

  /** `keyFor`: `${r.court_id}|${r.booking_date}` */
  function KeyFor(r: Value): string {
    ToStr(Get(r, "court_id")) + "|" + ToStr(Get(r, "booking_date"))
  }

  /** The timeslot list requested for the first reservation of a key */
  function TimeslotRequest(r: Value): Endpoint {
    GetTimeslots(ToStr(Get(r, "booking_date")), ToStr(Get(r, "court_id")))
  }

  /** Only an object has truthy properties, so a selected reservation is one. */
  lemma SelectedIsObject(r: Value)
    requires Selected(r)
    ensures r.Obj?
  {
  }

  /** The index at which the collecting `forEach` stops: the first nullish
      reservation, whose property read throws, or the end of the list */
  function ScanEnd(list: seq<Value>): (e: nat)
    ensures e <= |list|
    ensures e < |list| ==> Nullish(list[e])
    ensures forall j | 0 <= j < e :: !Nullish(list[j])
  {
    if list == [] then 0
    else if Nullish(list[0]) then 0
    else 1 + ScanEnd(list[1..])
  }

  /** The keys of `toFetch` after the first `n` reservations, in insertion order */
  function KeysOf(list: seq<Value>, n: nat): seq<string>
    requires n <= |list|
  {
    if n == 0 then []
    else
      var ks := KeysOf(list, n - 1);
      var r := list[n - 1];
      if Selected(r) && KeyFor(r) !in ks then ks + [KeyFor(r)] else ks
  }

  /** The timeslot requests issued while collecting the first `n` reservations */
  function FetchesOf(list: seq<Value>, n: nat): seq<Endpoint>
    requires n <= |list|
  {
    if n == 0 then []
    else
      var r := list[n - 1];
      FetchesOf(list, n - 1)
        + (if Selected(r) && KeyFor(r) !in KeysOf(list, n - 1) then [TimeslotRequest(r)] else [])
  }

  /** The first occurrence of key `k` among the first `n` reservations */
  predicate FirstOfKey(list: seq<Value>, n: nat, j: nat, k: string)
    requires n <= |list|
  {
    && j < n && Selected(list[j]) && KeyFor(list[j]) == k
    && forall i | 0 <= i < j :: !(Selected(list[i]) && KeyFor(list[i]) == k)
  }

  /** The keys are distinct: at most one list is fetched per key. */
  lemma {:induction false} KeysDistinct(list: seq<Value>, n: nat)
    requires n <= |list|
    ensures forall p, q | 0 <= p < q < |KeysOf(list, n)| :: KeysOf(list, n)[p] != KeysOf(list, n)[q]
  {
    if n > 0 {
      KeysDistinct(list, n - 1);
    }
  }

  /** Every selected reservation's key is among the keys. */
  lemma {:induction false} KeysComplete(list: seq<Value>, n: nat)
    requires n <= |list|
    ensures forall j | 0 <= j < n && Selected(list[j]) :: KeyFor(list[j]) in KeysOf(list, n)
  {
    if n > 0 {
      KeysComplete(list, n - 1);
    }
  }

  /** The reservation that first brought key `k` into the keys */
  ghost function FirstIndexOf(list: seq<Value>, n: nat, k: string): (j: nat)
    requires n <= |list| && k in KeysOf(list, n)
    ensures j < n
  {
    if k in KeysOf(list, n - 1) then FirstIndexOf(list, n - 1, k) else n - 1
  }

  lemma {:induction false} FirstIndexIsFirst(list: seq<Value>, n: nat, k: string)
    requires n <= |list| && k in KeysOf(list, n)
    ensures FirstOfKey(list, n, FirstIndexOf(list, n, k), k)
  {
    if k in KeysOf(list, n - 1) {
      FirstIndexIsFirst(list, n - 1, k);
    } else {
      KeysComplete(list, n - 1);
    }
  }

  /** The `q`-th request is built from the first reservation of the `q`-th key. */
  lemma {:induction false} FetchesFollowKeys(list: seq<Value>, n: nat)
    requires n <= |list|
    ensures |FetchesOf(list, n)| == |KeysOf(list, n)|
    ensures forall q | 0 <= q < |KeysOf(list, n)| ::
              FetchesOf(list, n)[q] == TimeslotRequest(list[FirstIndexOf(list, n, KeysOf(list, n)[q])])
  {
    if n > 0 {
      FetchesFollowKeys(list, n - 1);
      var ks := KeysOf(list, n - 1);
      var ks' := KeysOf(list, n);
      forall q | 0 <= q < |ks'|
        ensures FetchesOf(list, n)[q] == TimeslotRequest(list[FirstIndexOf(list, n, ks'[q])])
      {
        if q < |ks| {
          assert ks'[q] == ks[q] && ks[q] in ks;
        }
      }
    }
  }

  /** Only a key among the keys has reservations in its group. */
  lemma {:induction false} GroupNeedsKey(list: seq<Value>, k: string, n: nat)
    requires n <= |list| && k !in KeysOf(list, n)
    ensures GroupOf(list, k, n) == []
  {
    if n > 0 {
      GroupNeedsKey(list, k, n - 1);
    }
  }

  /** `groups[k]` after the first `n` reservations, as indices into the list */
  function GroupOf(list: seq<Value>, k: string, n: nat): seq<nat>
    requires n <= |list|
  {
    if n == 0 then []
    else
      var r := list[n - 1];
      GroupOf(list, k, n - 1) + (if Selected(r) && KeyFor(r) == k then [n - 1] else [])
  }

  /** The group of `k` lists, in increasing order, exactly the selected
      reservations of key `k` among the first `n`. */
  lemma GroupOfExact(list: seq<Value>, k: string, n: nat)
    requires n <= |list|
    ensures var g := GroupOf(list, k, n);
            && (forall s | 0 <= s < |g| :: g[s] < n && Selected(list[g[s]]) && KeyFor(list[g[s]]) == k)
            && (forall j | 0 <= j < n && Selected(list[j]) && KeyFor(list[j]) == k :: j in g)
            && (forall s, t | 0 <= s < t < |g| :: g[s] < g[t])
  {
    GroupOfSound(list, k, n);
    GroupOfComplete(list, k, n);
    GroupOfSorted(list, k, n);
  }

  lemma {:induction false} GroupOfSound(list: seq<Value>, k: string, n: nat)
    requires n <= |list|
    ensures forall s | 0 <= s < |GroupOf(list, k, n)| ::
              GroupOf(list, k, n)[s] < n && Selected(list[GroupOf(list, k, n)[s]])
              && KeyFor(list[GroupOf(list, k, n)[s]]) == k
  {
    if n > 0 {
      GroupOfSound(list, k, n - 1);
      var g0 := GroupOf(list, k, n - 1);
      var g := GroupOf(list, k, n);
      var r := list[n - 1];
      var extra: seq<nat> := if Selected(r) && KeyFor(r) == k then [n - 1] else [];
      assert g == g0 + extra;
      forall s | 0 <= s < |g| ensures g[s] < n && Selected(list[g[s]]) && KeyFor(list[g[s]]) == k {
        if s < |g0| {
          assert g[s] == g0[s];
        } else {
          assert extra != [] && g[s] == n - 1;
        }
      }
    }
  }

  lemma {:induction false} GroupOfComplete(list: seq<Value>, k: string, n: nat)
    requires n <= |list|
    ensures forall j | 0 <= j < n && Selected(list[j]) && KeyFor(list[j]) == k :: j in GroupOf(list, k, n)
  {
    if n > 0 {
      GroupOfComplete(list, k, n - 1);
      var g0 := GroupOf(list, k, n - 1);
      var g := GroupOf(list, k, n);
      var r := list[n - 1];
      var extra: seq<nat> := if Selected(r) && KeyFor(r) == k then [n - 1] else [];
      assert g == g0 + extra;
      forall j | 0 <= j < n && Selected(list[j]) && KeyFor(list[j]) == k ensures j in g {
        if j < n - 1 {
          var s :| 0 <= s < |g0| && g0[s] == j;
          assert g[s] == j;
        } else {
          assert g[|g0|] == j;
        }
      }
    }
  }

  lemma {:induction false} GroupOfSorted(list: seq<Value>, k: string, n: nat)
    requires n <= |list|
    ensures forall s, t | 0 <= s < t < |GroupOf(list, k, n)| :: GroupOf(list, k, n)[s] < GroupOf(list, k, n)[t]
  {
    if n > 0 {
      GroupOfSorted(list, k, n - 1);
      GroupOfSound(list, k, n - 1);
      var g0 := GroupOf(list, k, n - 1);
      var g := GroupOf(list, k, n);
      var r := list[n - 1];
      var extra: seq<nat> := if Selected(r) && KeyFor(r) == k then [n - 1] else [];
      assert g == g0 + extra;
      forall s, t | 0 <= s < t < |g| ensures g[s] < g[t] {
        assert g[s] == g0[s] && g0[s] < n - 1;
        if t < |g0| { assert g[t] == g0[t]; } else { assert g[t] == n - 1; }
      }
    }
  }

  // ---------------------------------------------------------------------
  // Matching a reservation to its slot
  // ---------------------------------------------------------------------

  /** How `slots.find(s => Number(s.id) === Number(timeslot_id))` ends: a
      match, no match, or a TypeError on a nullish slot met first */
  datatype SlotSearch = Found(index: nat, slot: Value) | NoMatch | Raised(index: nat)

  /** `Number(s.id) === Number(tid)`, for a slot that is not nullish */
  predicate Matches(s: Value, tid: Value) {
    SameNumber(Get(s, "id"), tid)
  }

  /** `find` from index `from`: the first slot that matches, unless a nullish
      slot comes before any match */
  function FindSlot(slots: seq<Value>, tid: Value, from: nat): (f: SlotSearch)
    requires from <= |slots|
    ensures f.Found? ==> from <= f.index < |slots| && f.slot == slots[f.index]
                         && Matches(f.slot, tid) && f.slot.Obj?
    ensures f.Raised? ==> from <= f.index < |slots| && Nullish(slots[f.index])
    ensures var stop := if f.NoMatch? then |slots| else f.index;
            forall j | from <= j < stop :: !Nullish(slots[j]) && !Matches(slots[j], tid)
    decreases |slots| - from
  {
    if from == |slots| then NoMatch
    else if Nullish(slots[from]) then Raised(from)
    else if Matches(slots[from], tid) then Found(from, slots[from])
    else FindSlot(slots, tid, from + 1)
  }

  /** `r.start_time = slot.start_time; r.end_time = slot.end_time` */
  function FillTimes(r: Value, slot: Value): Value
    requires r.Obj?
  {
    Obj(r.fields["start_time" := Get(slot, "start_time")]["end_time" := Get(slot, "end_time")])
  }

  /** Filling in changes the two times and no other property. */
  lemma FillTimesChangesOnlyTimes(r: Value, slot: Value, key: string)
    requires r.Obj?
    ensures Get(FillTimes(r, slot), "start_time") == Get(slot, "start_time")
    ensures Get(FillTimes(r, slot), "end_time") == Get(slot, "end_time")
    ensures key != "start_time" && key != "end_time" ==> Get(FillTimes(r, slot), key) == Get(r, key)
  {
  }

  /** Some earlier reservation of key `k` made `find` throw on `slots`, which
      ends that key's `forEach` before reservation `j` is reached */
  predicate GroupAborted(list: seq<Value>, k: string, slots: seq<Value>, j: nat)
    requires j <= |list|
  {
    exists i | 0 <= i < j ::
      Selected(list[i]) && KeyFor(list[i]) == k
      && FindSlot(slots, Get(list[i], "timeslot_id"), 0).Raised?
  }

  /** Reservation `j` after the fill-in, when every key's list was fetched as
      `fetched` says: changed only when it is selected, its key's list came
      back as an array, no earlier reservation of its key made the search
      throw, and a slot matches; then its times are that slot's. */
  function Filled(list: seq<Value>, fetched: string -> ApiResponse, j: nat): Value
    requires j < |list|
  {
    var r := list[j];
    if !Selected(r) then r
    else
      var res := fetched(KeyFor(r));
      if !(res.Success? && res.data.Arr?) then r
      else if GroupAborted(list, KeyFor(r), res.data.items, j) then r
      else
        match FindSlot(res.data.items, Get(r, "timeslot_id"), 0)
        case Found(_, slot) => FillTimes(r, slot)
        case NoMatch => r
        case Raised(_) => r
  }

  // ---------------------------------------------------------------------
  // The search as a whole
  // ---------------------------------------------------------------------

  /** The page's state */
  datatype PageState = PageState(
    reservations: Option<seq<Value>>, loading: bool, searched: bool, error: Option<string>)

  /** What one submission of the search form does: the new state and the
      requests made, the lookup first and then one timeslot list per key */
  datatype SearchStep = SearchStep(state: PageState, requests: seq<Endpoint>)

  /** `handleSearch` for the value `emailInput` of the email field, the lookup's
      response `lookup`, and `fetched(k)` the response for key `k`'s list */
  function Search(s: PageState, emailInput: string, lookup: ApiResponse,
                  fetched: string -> ApiResponse): SearchStep
  {
    var email := Trim(emailInput);
    if email == "" || !CustomerInfoStep.ValidEmail(email) then SearchStep(s, [])
    else
      var asked := [FindReservationByEmail(email)];
      if !(lookup.Success? && Truthy(lookup.data)) then
        SearchStep(PageState(Some([MockReservation]), false, true, None), asked)
      else
        var list := ReservationList(lookup.data);
        var e := ScanEnd(list);
        var requests := asked + FetchesOf(list, e);
        if e < |list| then
          SearchStep(PageState(s.reservations, true, true, None), requests)
        else
          var filled := seq(|list|, j requires 0 <= j < |list| => Filled(list, fetched, j));
          SearchStep(PageState(Some(filled), false, true,
                               if |list| == 0 then Some(NoReservationsMessage) else None),
                     requests)
  }

  /** An empty or malformed email changes nothing and asks nothing. */
  lemma InvalidEmailNoRequest(s: PageState, emailInput: string, lookup: ApiResponse,
                              fetched: string -> ApiResponse)
    ensures var step := Search(s, emailInput, lookup, fetched);
            step.requests == []
            <==> (Trim(emailInput) == "" || !CustomerInfoStep.ValidEmail(Trim(emailInput)))
    ensures var step := Search(s, emailInput, lookup, fetched);
            step.requests == [] ==> step.state == s
  {
  }

  /** A failed or empty lookup shows the placeholder reservation, with no
      error; an empty list shows no placeholder but the not-found error. */
  lemma LookupOutcomes(s: PageState, emailInput: string, lookup: ApiResponse,
                       fetched: string -> ApiResponse)
    requires Trim(emailInput) != "" && CustomerInfoStep.ValidEmail(Trim(emailInput))
    ensures var st := Search(s, emailInput, lookup, fetched).state;
            !(lookup.Success? && Truthy(lookup.data)) ==>
              st == PageState(Some([MockReservation]), false, true, None)
    ensures var st := Search(s, emailInput, lookup, fetched).state;
            lookup == Success(Arr([])) ==>
              st == PageState(Some([]), false, true, Some(NoReservationsMessage))
  {
    if lookup == Success(Arr([])) {
      assert ScanEnd([]) == 0;
      CompletedSearchShowsList(s, emailInput, lookup, fetched);
    }
  }

  /** A search whose list has no nullish entry shows the whole list, in its
      order, each reservation filled in as `Filled` says. */
  lemma CompletedSearchShowsList(s: PageState, emailInput: string, lookup: ApiResponse,
                                 fetched: string -> ApiResponse)
    requires Trim(emailInput) != "" && CustomerInfoStep.ValidEmail(Trim(emailInput))
    requires lookup.Success? && Truthy(lookup.data)
    requires ScanEnd(ReservationList(lookup.data)) == |ReservationList(lookup.data)|
    ensures var list := ReservationList(lookup.data);
            var st := Search(s, emailInput, lookup, fetched).state;
            && st.reservations.Some? && |st.reservations.value| == |list|
            && (forall j | 0 <= j < |list| :: st.reservations.value[j] == Filled(list, fetched, j))
            && !st.loading && st.searched
            && (st.error.Some? <==> list == [])
            && (list == [] ==> st.error == Some(NoReservationsMessage))
  {
  }

  /** A single reservation that is not in an array is treated as a list of one. */
  lemma SingleReservationListed(data: Value)
    requires !data.Arr?
    ensures ReservationList(data) == [data]
  {
  }

  /** After a completed search on a list without nullish entries, the list
      keeps its order and length, unselected reservations are untouched, and
      a selected one either is untouched or differs only in its two times,
      copied from a slot of its key's list whose id matches its timeslot id
      and before which no slot matches. */
  lemma FillInRespectsSelection(list: seq<Value>, fetched: string -> ApiResponse, j: nat, key: string)
    requires j < |list|
    ensures !Selected(list[j]) ==> Filled(list, fetched, j) == list[j]
    ensures Filled(list, fetched, j) != list[j] ==>
              var res := fetched(KeyFor(list[j]));
              && Selected(list[j]) && res.Success? && res.data.Arr?
              && exists i | 0 <= i < |res.data.items| ::
                   && Matches(res.data.items[i], Get(list[j], "timeslot_id"))
                   && (forall i' | 0 <= i' < i :: !Matches(res.data.items[i'], Get(list[j], "timeslot_id")))
                   && Get(Filled(list, fetched, j), "start_time") == Get(res.data.items[i], "start_time")
                   && Get(Filled(list, fetched, j), "end_time") == Get(res.data.items[i], "end_time")
    ensures key != "start_time" && key != "end_time" ==>
              Get(Filled(list, fetched, j), key) == Get(list[j], key)
  {
    var r := list[j];
    if Selected(r) {
      SelectedIsObject(r);
      var res := fetched(KeyFor(r));
      if res.Success? && res.data.Arr? && !GroupAborted(list, KeyFor(r), res.data.items, j) {
        var f := FindSlot(res.data.items, Get(r, "timeslot_id"), 0);
        if f.Found? {
          FillTimesChangesOnlyTimes(r, f.slot, key);
          FillTimesChangesOnlyTimes(r, f.slot, "start_time");
          FillTimesChangesOnlyTimes(r, f.slot, "end_time");
        }
      }
    }
  }

  /** A selected reservation whose key's list holds a matching slot, with no
      nullish slot before the first match in that list, gets that slot's
      times, unless an earlier reservation of its key made the search throw. */
  lemma MatchingSlotFillsTimes(list: seq<Value>, fetched: string -> ApiResponse, j: nat, i: nat)
    requires j < |list| && Selected(list[j])
    requires var res := fetched(KeyFor(list[j]));
             res.Success? && res.data.Arr? && i < |res.data.items|
             && Matches(res.data.items[i], Get(list[j], "timeslot_id"))
             && forall i' | 0 <= i' < i :: !Nullish(res.data.items[i'])
    requires !GroupAborted(list, KeyFor(list[j]), fetched(KeyFor(list[j])).data.items, j)
    ensures var slots := fetched(KeyFor(list[j])).data.items;
            exists m | 0 <= m <= i ::
              Filled(list, fetched, j) == FillTimes(list[j], slots[m])
              && Matches(slots[m], Get(list[j], "timeslot_id"))
  {
    var slots := fetched(KeyFor(list[j])).data.items;
    var f := FindSlot(slots, Get(list[j], "timeslot_id"), 0);
    assert !f.NoMatch? && !f.Raised?;
    assert f.index <= i;
  }

  /** The requests of a search past the lookup: the lookup, then the
      timeslot lists asked for while collecting */
  lemma SearchRequests(s: PageState, emailInput: string, lookup: ApiResponse,
                       fetched: string -> ApiResponse)
    requires Trim(emailInput) != "" && CustomerInfoStep.ValidEmail(Trim(emailInput))
    requires lookup.Success? && Truthy(lookup.data)
    ensures var list := ReservationList(lookup.data);
            Search(s, emailInput, lookup, fetched).requests
            == [FindReservationByEmail(Trim(emailInput))] + FetchesOf(list, ScanEnd(list))
  {
  }

  /** The timeslot requests issued while collecting the first `n`
      reservations (all of them in a completed search, see `SearchRequests`):
      exactly one per distinct key of the selected reservations, in the order
      the keys first occur, each built from the first reservation of its key. */
  lemma OneFetchPerKey(list: seq<Value>, n: nat)
    requires n <= |list|
    ensures var keys := KeysOf(list, n);
            var fetches := FetchesOf(list, n);
            && |fetches| == |keys|
            && (forall p, q | 0 <= p < q < |keys| :: keys[p] != keys[q])
            && (forall j | 0 <= j < n && Selected(list[j]) :: KeyFor(list[j]) in keys)
            && forall q | 0 <= q < |keys| ::
                 exists j: nat :: FirstOfKey(list, n, j, keys[q]) && fetches[q] == TimeslotRequest(list[j])
  {
    KeysDistinct(list, n);
    KeysComplete(list, n);
    FetchesFollowKeys(list, n);
    forall q | 0 <= q < |KeysOf(list, n)|
      ensures exists j: nat :: FirstOfKey(list, n, j, KeysOf(list, n)[q])
                               && FetchesOf(list, n)[q] == TimeslotRequest(list[j])
    {
      FirstIndexIsFirst(list, n, KeysOf(list, n)[q]);
    }
  }

  /** A nullish entry stops the collection with a TypeError: the requests
      issued up to it stay issued, the page keeps showing the loading state and
      its previous reservations. */
  lemma NullishEntryAbortsSearch(s: PageState, emailInput: string, list: seq<Value>,
                                 fetched: string -> ApiResponse, e: nat)
    requires Trim(emailInput) != "" && CustomerInfoStep.ValidEmail(Trim(emailInput))
    requires e < |list| && Nullish(list[e]) && forall j | 0 <= j < e :: !Nullish(list[j])
    ensures var step := Search(s, emailInput, Success(Arr(list)), fetched);
            step.state == PageState(s.reservations, true, true, None)
            && step.requests == [FindReservationByEmail(Trim(emailInput))] + FetchesOf(list, e)
  {
    assert ScanEnd(list) == e by { ScanEndIsFirstNullish(list, e); }
  }

  lemma {:induction false} ScanEndIsFirstNullish(list: seq<Value>, e: nat)
    requires e < |list| && Nullish(list[e]) && forall j | 0 <= j < e :: !Nullish(list[j])
    ensures ScanEnd(list) == e
  {
    if e > 0 {
      ScanEndIsFirstNullish(list[1..], e - 1);
    }
  }

  // ---------------------------------------------------------------------
  // The page
  // ---------------------------------------------------------------------

  /** The page's state hooks */
  class FindBookingPage {
    var reservations: Option<seq<Value>>
    var loading: bool
    var searched: bool
    var error: Option<string>

    function State(): PageState
      reads this
    {
      PageState(reservations, loading, searched, error)
    }

    constructor()
      ensures State() == PageState(None, false, false, None)
    {
      reservations := None;
      loading := false;
      searched := false;
      error := None;
    }

    /** `handleSearch`; returns the requests it made, in order */
    method HandleSearch(emailInput: string, lookup: ApiResponse, fetched: string -> ApiResponse)
      returns (requests: seq<Endpoint>)
      modifies this
      ensures var step := Search(old(State()), emailInput, lookup, fetched);
              State() == step.state && requests == step.requests
    {
      var email := Trim(emailInput);
      if email == "" || !CustomerInfoStep.ValidEmail(email) {
        return [];
      }
      loading := true;
      error := None;
      searched := true;

      requests := [FindReservationByEmail(email)];
      if !(lookup.Success? && Truthy(lookup.data)) {
        reservations := Some([MockReservation]);
        error := None;
        loading := false;
        return;
      }
      var list := ReservationList(lookup.data);
      var groups, keys, fetches, stop := CollectGroups(list);
      requests := requests + fetches;
      if stop < |list| {
        // the TypeError leaves the handler here, with the page still loading
        return;
      }
      var cur := FillAll(list, fetched, groups, keys);
      reservations := Some(cur);
      if |list| == 0 {
        error := Some(NoReservationsMessage);
      }
      loading := false;
    }
  }

  /** The collecting `forEach`: `groups` and the keys of `toFetch` in
      insertion order, with the request issued for each key. It stops at
      `stop`, the first nullish reservation, if there is one. */
  method CollectGroups(list: seq<Value>)
    returns (groups: map<string, seq<nat>>, keys: seq<string>, fetches: seq<Endpoint>, stop: nat)
    ensures stop == ScanEnd(list)
    ensures keys == KeysOf(list, stop) && fetches == FetchesOf(list, stop)
    ensures forall k :: k in groups <==> k in keys
    ensures forall k | k in groups :: groups[k] == GroupOf(list, k, stop)
  {
    groups := map[];
    keys := [];
    fetches := [];
    var i := 0;
    // a nullish reservation makes the property read throw, ending the `forEach`
    while i < |list| && !Nullish(list[i])
      invariant 0 <= i <= |list|
      invariant forall j | 0 <= j < i :: !Nullish(list[j])
      invariant keys == KeysOf(list, i) && fetches == FetchesOf(list, i)
      invariant GroupsUpTo(list, i, groups, keys)
    {
      groups, keys, fetches := CollectOne(list, i, groups, keys, fetches);
      i := i + 1;
    }
    if i < |list| {
      ScanEndIsFirstNullish(list, i);
    } else {
      ScanEndWhole(list);
    }
    stop := i;
  }

  /** `groups` after the first `n` reservations: one entry per key, holding
      that key's group */
  ghost predicate GroupsUpTo(list: seq<Value>, n: nat, groups: map<string, seq<nat>>, keys: seq<string>)
    requires n <= |list|
  {
    && (forall k :: k in groups <==> k in keys)
    && forall k | k in groups :: groups[k] == GroupOf(list, k, n)
  }

  /** One turn of the collecting `forEach`, on a reservation that is not
      nullish: a selected reservation joins its key's group, and the first one
      of its key adds the key and issues the key's request. */
  method CollectOne(list: seq<Value>, i: nat, groups: map<string, seq<nat>>, keys: seq<string>,
                    fetches: seq<Endpoint>)
    returns (groups': map<string, seq<nat>>, keys': seq<string>, fetches': seq<Endpoint>)
    requires i < |list| && !Nullish(list[i])
    requires keys == KeysOf(list, i) && fetches == FetchesOf(list, i)
    requires GroupsUpTo(list, i, groups, keys)
    ensures keys' == KeysOf(list, i + 1) && fetches' == FetchesOf(list, i + 1)
    ensures GroupsUpTo(list, i + 1, groups', keys')
  {
    var r := list[i];
    groups', keys', fetches' := groups, keys, fetches;
    if Selected(r) {
      var k := KeyFor(r);
      if k !in groups' {
        GroupNeedsKey(list, k, i);
        groups' := groups'[k := []];
      }
      groups' := groups'[k := groups'[k] + [i]];
      if k !in keys' {
        keys' := keys' + [k];
        fetches' := fetches' + [TimeslotRequest(r)];
      }
    }
    CollectStep(list, i, keys, groups, keys', groups');
  }

  /** The `Promise.all` over the keys, taken one key after the other: each
      key's reservations are filled in from that key's response. */
  method FillAll(list: seq<Value>, fetched: string -> ApiResponse,
                 groups: map<string, seq<nat>>, keys: seq<string>)
    returns (cur: seq<Value>)
    requires ScanEnd(list) == |list| && keys == KeysOf(list, |list|)
    requires forall k :: k in groups <==> k in keys
    requires forall k | k in groups :: groups[k] == GroupOf(list, k, |list|)
    ensures cur == seq(|list|, j requires 0 <= j < |list| => Filled(list, fetched, j))
  {
    KeysDistinct(list, |list|);
    KeysComplete(list, |list|);
    cur := list;
    var q := 0;
    while q < |keys|
      invariant 0 <= q <= |keys| && |cur| == |list|
      invariant forall j | 0 <= j < |list| ::
                  cur[j] == if Selected(list[j]) && KeyFor(list[j]) in keys[..q]
                            then Filled(list, fetched, j) else list[j]
    {
      var k := keys[q];
      var res := fetched(k);
      if res.Success? && res.data.Arr? {
        cur := FillGroup(list, fetched, keys, q, cur, res.data.items, groups[k]);
      }
      PrefixStep(keys, q);
      q := q + 1;
    }
    assert keys[..q] == keys;
  }

  /** One step of the collecting loop keeps `groups` and the keys in step
      with their definitions. */
  lemma CollectStep(list: seq<Value>, i: nat, keys0: seq<string>, groups0: map<string, seq<nat>>,
                    keys: seq<string>, groups: map<string, seq<nat>>)
    requires i < |list| && keys0 == KeysOf(list, i)
    requires GroupsUpTo(list, i, groups0, keys0)
    requires var r := list[i];
             if Selected(r) then
               && keys == (if KeyFor(r) in keys0 then keys0 else keys0 + [KeyFor(r)])
               && groups == groups0[KeyFor(r) := GroupOf(list, KeyFor(r), i) + [i]]
             else keys == keys0 && groups == groups0
    ensures keys == KeysOf(list, i + 1)
    ensures GroupsUpTo(list, i + 1, groups, keys)
  {
  }

  lemma PrefixStep(keys: seq<string>, q: nat)
    requires q < |keys|
    ensures forall x :: x in keys[..q + 1] <==> x in keys[..q] || x == keys[q]
  {
    assert keys[..q + 1] == keys[..q] + [keys[q]];
  }

  lemma {:induction false} ScanEndWhole(list: seq<Value>)
    requires forall j | 0 <= j < |list| :: !Nullish(list[j])
    ensures ScanEnd(list) == |list|
  {
    if list != [] {
      ScanEndWhole(list[1..]);
    }
  }

  /** In an increasing sequence, an element below the `s`-th stands before it. */
  lemma EarlierInSorted(g: seq<nat>, s: nat, i: nat)
    requires forall s1, s2 | 0 <= s1 < s2 < |g| :: g[s1] < g[s2]
    requires s < |g| && i in g && i < g[s]
    ensures i in g[..s]
  {
    var s' :| 0 <= s' < |g| && g[s'] == i;
    assert s' < s;
    assert g[..s][s'] == i;
  }

  /** The group of key `k` (the one at position `q` of the keys) filled in
      from `slots`, the key's fetched array: `groups[k].forEach` over `find`,
      stopped by the first search that throws */
  method FillGroup(list: seq<Value>, fetched: string -> ApiResponse, keys: seq<string>, q: nat,
                   cur0: seq<Value>, slots: seq<Value>, g: seq<nat>)
    returns (cur: seq<Value>)
    requires q < |keys| && |cur0| == |list|
    requires forall p, p' | 0 <= p < p' < |keys| :: keys[p] != keys[p']
    requires var res := fetched(keys[q]); res.Success? && res.data.Arr? && res.data.items == slots
    requires g == GroupOf(list, keys[q], |list|)
    requires forall j | 0 <= j < |list| ::
               cur0[j] == if Selected(list[j]) && KeyFor(list[j]) in keys[..q]
                          then Filled(list, fetched, j) else list[j]
    ensures |cur| == |list|
    ensures forall j | 0 <= j < |list| ::
              cur[j] == if Selected(list[j]) && (KeyFor(list[j]) in keys[..q] || KeyFor(list[j]) == keys[q])
                        then Filled(list, fetched, j) else list[j]
  {
    var k := keys[q];
    assert k !in keys[..q];
    GroupOfSound(list, k, |list|);
    GroupOfComplete(list, k, |list|);
    GroupOfSorted(list, k, |list|);
    cur := cur0;
    var t := 0;
    var aborted := false;
    while t < |g| && !aborted
      decreases |g| - t, if aborted then 0 else 1
      invariant 0 <= t <= |g| && |cur| == |list|
      invariant forall s | 0 <= s < t :: !FindSlot(slots, Get(list[g[s]], "timeslot_id"), 0).Raised?
      invariant aborted ==> t < |g| && forall s | t <= s < |g| :: Filled(list, fetched, g[s]) == list[g[s]]
      invariant forall j | 0 <= j < |list| && !(Selected(list[j]) && KeyFor(list[j]) == k) :: cur[j] == cur0[j]
      invariant forall s | 0 <= s < t :: cur[g[s]] == Filled(list, fetched, g[s])
      invariant forall s | t <= s < |g| :: cur[g[s]] == list[g[s]]
    {
      var raised;
      ghost var before := cur;
      cur, raised := FillOne(list, fetched, k, slots, g, t, cur);
      if raised {
        aborted := true;
        AbortedRest(list, fetched, k, slots, g, t);
      } else {
        FillStep(list, fetched, k, slots, g, t, cur0, before, cur);
        t := t + 1;
      }
    }
    GroupFilledAll(list, fetched, k, cur, g, t, aborted);
  }

  /** A turn of the group's loop that did not throw keeps the loop's invariants. */
  lemma FillStep(list: seq<Value>, fetched: string -> ApiResponse, k: string, slots: seq<Value>,
                 g: seq<nat>, t: nat, cur0: seq<Value>, cur: seq<Value>, next: seq<Value>)
    requires g == GroupOf(list, k, |list|) && t < |g| && |cur| == |list| && |cur0| == |list|
    requires forall s | 0 <= s < |g| :: g[s] < |list| && Selected(list[g[s]]) && KeyFor(list[g[s]]) == k
    requires forall s1, s2 | 0 <= s1 < s2 < |g| :: g[s1] < g[s2]
    requires forall s | 0 <= s < t :: !FindSlot(slots, Get(list[g[s]], "timeslot_id"), 0).Raised?
    requires !FindSlot(slots, Get(list[g[t]], "timeslot_id"), 0).Raised?
    requires forall j | 0 <= j < |list| && !(Selected(list[j]) && KeyFor(list[j]) == k) :: cur[j] == cur0[j]
    requires forall s | 0 <= s < t :: cur[g[s]] == Filled(list, fetched, g[s])
    requires forall s | t <= s < |g| :: cur[g[s]] == list[g[s]]
    requires next == cur[g[t] := Filled(list, fetched, g[t])]
    ensures |next| == |list|
    ensures forall s | 0 <= s < t + 1 :: !FindSlot(slots, Get(list[g[s]], "timeslot_id"), 0).Raised?
    ensures forall j | 0 <= j < |list| && !(Selected(list[j]) && KeyFor(list[j]) == k) :: next[j] == cur0[j]
    ensures forall s | 0 <= s < t + 1 :: next[g[s]] == Filled(list, fetched, g[s])
    ensures forall s | t + 1 <= s < |g| :: next[g[s]] == list[g[s]]
  {
    SortedDistinct(g, t);
  }

  /** One turn of the group's `forEach`: the `t`-th reservation of the group
      is searched for in `slots`; unless that search throws, the reservation
      takes its filled-in value. */
  method FillOne(list: seq<Value>, fetched: string -> ApiResponse, k: string,
                 slots: seq<Value>, g: seq<nat>, t: nat, cur: seq<Value>)
    returns (next: seq<Value>, raised: bool)
    requires g == GroupOf(list, k, |list|) && t < |g| && |cur| == |list|
    requires forall s | 0 <= s < |g| :: g[s] < |list| && Selected(list[g[s]]) && KeyFor(list[g[s]]) == k
    requires var res := fetched(k); res.Success? && res.data.Arr? && res.data.items == slots
    requires forall s | 0 <= s < t :: !FindSlot(slots, Get(list[g[s]], "timeslot_id"), 0).Raised?
    requires cur[g[t]] == list[g[t]]
    ensures raised == FindSlot(slots, Get(list[g[t]], "timeslot_id"), 0).Raised?
    ensures raised ==> next == cur
    ensures !raised ==> next == cur[g[t] := Filled(list, fetched, g[t])]
  {
    var j := g[t];
    SelectedIsObject(list[j]);
    var f := FindSlot(slots, Get(cur[j], "timeslot_id"), 0);
    raised := f.Raised?;
    next := cur;
    if !raised {
      NotAbortedYet(list, k, slots, g, t);
      FilledInOrder(list, fetched, k, slots, g, t);
      if f.Found? {
        next := cur[j := FillTimes(cur[j], f.slot)];
      }
    }
  }

  lemma SortedDistinct(g: seq<nat>, t: nat)
    requires t < |g| && forall s1, s2 | 0 <= s1 < s2 < |g| :: g[s1] < g[s2]
    ensures forall s | 0 <= s < |g| && s != t :: g[s] != g[t]
  {
    forall s | 0 <= s < |g| && s != t ensures g[s] != g[t] {
      if s < t { assert g[s] < g[t]; } else { assert g[t] < g[s]; }
    }
  }

  /** The `t`-th reservation of a group, reached with no earlier search
      throwing, gets the times of the slot `find` returns, if any. */
  lemma FilledInOrder(list: seq<Value>, fetched: string -> ApiResponse, k: string,
                      slots: seq<Value>, g: seq<nat>, t: nat)
    requires g == GroupOf(list, k, |list|) && t < |g|
    requires forall s | 0 <= s < |g| :: g[s] < |list|
    requires Selected(list[g[t]]) && KeyFor(list[g[t]]) == k
    requires var res := fetched(k); res.Success? && res.data.Arr? && res.data.items == slots
    requires !GroupAborted(list, k, slots, g[t])
    ensures list[g[t]].Obj?
    ensures Filled(list, fetched, g[t])
            == match FindSlot(slots, Get(list[g[t]], "timeslot_id"), 0)
               case Found(_, slot) => FillTimes(list[g[t]], slot)
               case NoMatch => list[g[t]]
               case Raised(_) => list[g[t]]
  {
    SelectedIsObject(list[g[t]]);
  }

  /** When the group's loop ends, by running out or by a throw, every
      reservation of the key holds its filled-in value. */
  lemma GroupFilledAll(list: seq<Value>, fetched: string -> ApiResponse, k: string,
                       cur: seq<Value>, g: seq<nat>, t: nat, aborted: bool)
    requires g == GroupOf(list, k, |list|) && t <= |g| && |cur| == |list|
    requires forall j | 0 <= j < |list| && Selected(list[j]) && KeyFor(list[j]) == k :: j in g
    requires forall s | 0 <= s < |g| :: g[s] < |list|
    requires !aborted ==> t == |g|
    requires aborted ==> forall s | t <= s < |g| :: Filled(list, fetched, g[s]) == list[g[s]]
    requires forall s | 0 <= s < t :: cur[g[s]] == Filled(list, fetched, g[s])
    requires forall s | t <= s < |g| :: cur[g[s]] == list[g[s]]
    ensures forall j | 0 <= j < |list| && Selected(list[j]) && KeyFor(list[j]) == k ::
              cur[j] == Filled(list, fetched, j)
  {
    forall j | 0 <= j < |list| && Selected(list[j]) && KeyFor(list[j]) == k
      ensures cur[j] == Filled(list, fetched, j)
    {
      var s :| 0 <= s < |g| && g[s] == j;
    }
  }

  /** No earlier reservation of the group made the search throw. */
  lemma NotAbortedYet(list: seq<Value>, k: string, slots: seq<Value>, g: seq<nat>, t: nat)
    requires g == GroupOf(list, k, |list|) && t < |g|
    requires forall s | 0 <= s < |g| :: g[s] < |list|
    requires forall s | 0 <= s < t :: !FindSlot(slots, Get(list[g[s]], "timeslot_id"), 0).Raised?
    ensures !GroupAborted(list, k, slots, g[t])
  {
    GroupOfExact(list, k, |list|);
    forall i | 0 <= i < g[t] && Selected(list[i]) && KeyFor(list[i]) == k
      ensures !FindSlot(slots, Get(list[i], "timeslot_id"), 0).Raised?
    {
      EarlierInSorted(g, t, i);
      var s :| 0 <= s < t && g[..t][s] == i;
      assert g[s] == i;
    }
  }

  /** Once the search throws for the `t`-th reservation of a group, it and
      every later one keep their values. */
  lemma AbortedRest(list: seq<Value>, fetched: string -> ApiResponse, k: string,
                    slots: seq<Value>, g: seq<nat>, t: nat)
    requires g == GroupOf(list, k, |list|) && t < |g|
    requires forall s | 0 <= s < |g| :: g[s] < |list|
    requires var res := fetched(k); res.Success? && res.data.Arr? && res.data.items == slots
    requires FindSlot(slots, Get(list[g[t]], "timeslot_id"), 0).Raised?
    ensures forall s | t <= s < |g| :: Filled(list, fetched, g[s]) == list[g[s]]
  {
    GroupOfSound(list, k, |list|);
    GroupOfSorted(list, k, |list|);
    forall s | t <= s < |g| ensures Filled(list, fetched, g[s]) == list[g[s]] {
      if s > t {
        assert g[t] < g[s];
      }
      RaisedKeepsLater(list, fetched, k, slots, g[s], g[t]);
    }
  }

  /** A reservation of key `k` at or after one whose search throws keeps its value. */
  lemma RaisedKeepsLater(list: seq<Value>, fetched: string -> ApiResponse, k: string,
                         slots: seq<Value>, j: nat, i: nat)
    requires i <= j < |list|
    requires Selected(list[j]) && KeyFor(list[j]) == k
    requires Selected(list[i]) && KeyFor(list[i]) == k
    requires var res := fetched(k); res.Success? && res.data.Arr? && res.data.items == slots
    requires FindSlot(slots, Get(list[i], "timeslot_id"), 0).Raised?
    ensures Filled(list, fetched, j) == list[j]
  {
    if i < j {
      assert GroupAborted(list, k, slots, j);
    }
  }
}
