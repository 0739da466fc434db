/** The API client of lib/api.ts: base URL normalisation, the mapping from one
    HTTP attempt to an `ApiResponse`, the primary/fallback retry rule and the
    endpoint builders. The network is not modelled: what one `fetch` produced is
    an input (`Exchange`). */
module Api {
  import opened JsValues

  /** Used when the configured base is empty after trimming and normalising */
  const DefaultBase := "http://localhost:8088"
  /** The base tried after a failed primary attempt */
  const LocalFallback := "http://localhost:8088"

  // ---------------------------------------------------------------------
  // Base URLs
  // ---------------------------------------------------------------------

  function StripTrailingSlashes(u: string): (r: string)
    ensures r <= u
    ensures r == [] || r[|r| - 1] != '/'
    ensures forall k | |r| <= k < |u| :: u[k] == '/'
  {
    if u != [] && u[|u| - 1] == '/' then StripTrailingSlashes(u[..|u| - 1]) else u
  }

  /** `normalize`: drops the run of `/` at the end of the string */
  function Normalize(u: string): (r: string)
    ensures r <= u
    ensures r == [] || r[|r| - 1] != '/'
    ensures forall k | |r| <= k < |u| :: u[k] == '/'
  {
    if u == "" then "" else StripTrailingSlashes(u)
  }

  function Slashes(n: nat): (r: string)
    ensures |r| == n && forall k | 0 <= k < n :: r[k] == '/'
  {
    if n == 0 then "" else Slashes(n - 1) + "/"
  }

  /** Normalising removes exactly the trailing slashes: a string that does not
      end in `/`, followed by any number of slashes, normalises to itself. */
  lemma {:induction false} NormalizeRemovesTrailingSlashes(p: string, n: nat)
    requires p == [] || p[|p| - 1] != '/'
    ensures Normalize(p + Slashes(n)) == p
  {
    if n > 0 {
      NormalizeRemovesTrailingSlashes(p, n - 1);
      var u := p + Slashes(n);
      assert u[..|u| - 1] == p + Slashes(n - 1);
      if p + Slashes(n - 1) == "" {
        assert u == "/";
      }
    }
  }

  lemma NormalizeIdempotent(u: string)
    ensures Normalize(Normalize(u)) == Normalize(u)
  {
    var r := Normalize(u);
    assert r + Slashes(0) == r;
    NormalizeRemovesTrailingSlashes(r, 0);
  }

  /** `API_BASE_URL`: the trimmed, normalised configured URL (`""` when the
      variable is unset), or the default when that is empty */
  function PrimaryBase(configured: string): (r: string)
    ensures r != "" && r[|r| - 1] != '/'
    ensures (forall k | 0 <= k < |Trim(configured)| :: Trim(configured)[k] == '/') ==> r == DefaultBase
    ensures (exists k | 0 <= k < |Trim(configured)| :: Trim(configured)[k] != '/') ==>
              r <= Trim(configured) && forall k | |r| <= k < |Trim(configured)| :: Trim(configured)[k] == '/'
  {
    var t := Trim(configured);
    var n := Normalize(t);
    if n == "" then DefaultBase
    else
      assert t[|n| - 1] == n[|n| - 1];
      n
  }

  /** The primary base is already normalised, so comparing the normalised
      bases (as both retry branches do) is comparing the bases. */
  lemma SameBaseIff(configured: string)
    ensures (Normalize(PrimaryBase(configured)) == Normalize(LocalFallback))
            <==> (PrimaryBase(configured) == LocalFallback)
  {
    NormalizeIdempotent(Trim(configured));
    assert Normalize(LocalFallback) == LocalFallback;
  }

  /** A configured URL that is empty, blank or only slashes selects the default. */
  lemma BlankConfigurationUsesDefault(configured: string, n: nat)
    requires AllWhitespace(configured) || configured == Slashes(n)
    ensures PrimaryBase(configured) == DefaultBase
  {
    if AllWhitespace(configured) {
      TrimEmptyIff(configured);
    } else {
      if configured != "" {
        assert configured[0] == '/';
        TrimOfTrimmed(configured);
      }
      assert "" + Slashes(n) == configured;
      NormalizeRemovesTrailingSlashes("", n);
    }
  }

  // ---------------------------------------------------------------------
  // One attempt
  // ---------------------------------------------------------------------

  /** What a `throw` carried: an `Error` with its message, or anything else */
  datatype Thrown = ErrorInstance(message: string) | OtherThrown

  /** What one `fetch(url, …)` produced: a rejected promise, or a response whose
      body parsed as JSON (`Some`) or did not (`None`) */
  datatype Exchange =
    | TransportFailure(thrown: Thrown)
    | Response(status: int, body: Option<Value>)

  /** `ApiResponse<T>`: `{success: true, data}` or `{success: false, error}`.
      The error is whatever value the body's `message` held, so it is a `Value`. */
  datatype ApiResponse = Success(data: Value) | Failure(error: Value)

  /** How one call of `attemptFetch` ended */
  datatype Completion = Returned(response: ApiResponse) | Threw(thrown: Thrown)

  /** `response.ok` */
  predicate IsOk(status: int) {
    200 <= status <= 299
  }

  function StatusText(status: int): string {
    "HTTP " + IntToString(status)
  }

  /** The error of a non-2xx attempt: the parsed body's `message` if truthy,
      else `HTTP <status>` */
  function HttpErrorOf(status: int, errorData: Value): (e: Value)
    ensures Truthy(e)
    ensures Truthy(Get(errorData, "message")) ==> e == Get(errorData, "message")
    ensures !Truthy(Get(errorData, "message")) ==> e == Str("HTTP " + IntToString(status))
                                                    && ToNumber(Str(e.s[5..])) == Some(status)
  {
    var message := Get(errorData, "message");
    if Truthy(message) then message
    else
      var text := StatusText(status);
      assert text[5..] == IntToString(status);
      IntToStringRoundTrip(status);
      Str(text)
  }

  /** The payload of a 2xx attempt: `body.data` when the body is an object owning
      a `data` key, otherwise the body itself, with `null` for an unparsable body */
  function Payload(body: Option<Value>): Value {
    match body
    case None => Null
    case Some(v) => if v.Obj? && "data" in v.fields then v.fields["data"] else v
  }

  /** `attemptFetch`, with an unparsable or `null` error body treated as `{}`:
      it throws exactly when `fetch` did, and otherwise succeeds exactly on a
      2xx status. */
  function AttemptFetch(e: Exchange): (c: Completion)
    ensures c.Threw? <==> e.TransportFailure?
    ensures c.Returned? ==> (c.response.Success? <==> IsOk(e.status))
  {
    match e
    case TransportFailure(t) => Threw(t)
    case Response(status, body) =>
      if !IsOk(status) then
        var errorData := if body.Some? && !Nullish(body.value) then body.value else Obj(map[]);
        Returned(Failure(HttpErrorOf(status, errorData)))
      else
        Returned(Success(Payload(body)))
  }

  /** What V8 says when `errorData.message` is read on `null` or `undefined` */
  function MessageReadError(errorData: Value): string {
    "Cannot read properties of " + ToStr(errorData) + " (reading 'message')"
  }

  /** A non-2xx response whose body parsed as `null` */
  predicate NullErrorBody(e: Exchange) {
    e.Response? && !IsOk(e.status) && e.body.Some? && Nullish(e.body.value)
  }

  /** `attemptFetch` as written: a non-2xx body that parses as `null` survives
      the `.catch(() => ({}))`, and reading its `message` throws a TypeError.
      So it throws after a transport failure and after a `null` error body. */
  function AttemptFetchAsWritten(e: Exchange): (c: Completion)
    ensures c.Threw? <==> e.TransportFailure? || NullErrorBody(e)
    ensures c.Returned? ==> (c.response.Success? <==> IsOk(e.status))
  {
    match e
    case TransportFailure(t) => Threw(t)
    case Response(status, body) =>
      if !IsOk(status) then
        var errorData := if body.Some? then body.value else Obj(map[]);
        if Nullish(errorData) then Threw(ErrorInstance(MessageReadError(errorData)))
        else Returned(Failure(HttpErrorOf(status, errorData)))
      else
        Returned(Success(Payload(body)))
  }

  /** The two readings differ only on a non-2xx response whose body is `null`. */
  lemma AsWrittenDiffersOnlyOnNullErrorBody(e: Exchange)
    ensures AttemptFetchAsWritten(e) != AttemptFetch(e) <==> NullErrorBody(e)
  {
  }

  /** The input that shows the discrepancy: a 500 response with body `null`
      throws as written, and yields `HTTP 500` once `null` is treated as `{}`. */
  lemma NullErrorBodyThrowsAsWritten()
    ensures AttemptFetchAsWritten(Response(500, Some(Null)))
            == Threw(ErrorInstance("Cannot read properties of null (reading 'message')"))
    ensures AttemptFetch(Response(500, Some(Null))) == Returned(Failure(Str("HTTP 500")))
  {
    assert MessageReadError(Null) == "Cannot read properties of null (reading 'message')";
    assert NatToString(5) == "5";
    assert NatToString(50) == "50";
    assert NatToString(500) == "500";
    assert StatusText(500) == "HTTP 500";
  }

  /** A non-2xx attempt never throws and fails with the body's truthy
      `message`, or with `HTTP <status>` (also when the body did not parse). */
  lemma HttpErrorAttempt(status: int, body: Option<Value>)
    requires !IsOk(status)
    ensures var c := AttemptFetch(Response(status, body));
            c.Returned? && c.response.Failure? && Truthy(c.response.error)
    ensures body.Some? && Truthy(Get(body.value, "message")) ==>
              AttemptFetch(Response(status, body)) == Returned(Failure(Get(body.value, "message")))
    ensures body.None? || !Truthy(Get(body.value, "message")) ==>
              AttemptFetch(Response(status, body)) == Returned(Failure(Str("HTTP " + IntToString(status))))
  {
  }

  /** The server's envelope `{success, message, data: X}` is unwrapped to `X`. */
  lemma EnvelopeUnwrapped(status: int, fields: map<string, Value>, x: Value)
    requires IsOk(status)
    ensures AttemptFetch(Response(status, Some(Obj(fields["data" := x])))) == Returned(Success(x))
  {
  }

  /** A 2xx body that is not an object owning `data` is passed through
      unchanged, an unparsable one as `null`. */
  lemma BareBodyPassedThrough(status: int, body: Option<Value>)
    requires IsOk(status)
    requires body.Some? ==> !(body.value.Obj? && "data" in body.value.fields)
    ensures AttemptFetch(Response(status, body))
            == Returned(Success(if body.Some? then body.value else Null))
  {
  }

  /** Every failure an attempt returns carries a truthy error. */
  lemma AttemptErrorTruthy(e: Exchange)
    ensures AttemptFetch(e).Returned? && AttemptFetch(e).response.Failure?
            ==> Truthy(AttemptFetch(e).response.error)
  {
  }

  // ---------------------------------------------------------------------
  // The retry rule
  // ---------------------------------------------------------------------

  /** The result of one `apiCall` and the URLs it fetched, in order */
  datatype Call = Call(result: ApiResponse, attempted: seq<string>)

  /** The error of a call whose primary attempt threw */
  function ThrownMessage(t: Thrown): Value {
    match t
    case ErrorInstance(m) => Str(m)
    case OtherThrown => Str("Network error")
  }

  /** `apiCall`, given how `attemptFetch` ends on the primary base (`pc`) and,
      should it be tried, on the fallback base (`fc`). Total: it never throws,
      and it fetches at most twice, the fallback only after a failed primary
      attempt and only when the two bases differ. */
  function ApiCallOn(configured: string, endpoint: string, pc: Completion, fc: Completion): (c: Call)
    ensures 1 <= |c.attempted| <= 2
    ensures c.attempted[0] == PrimaryBase(configured) + endpoint
    ensures |c.attempted| == 2 ==>
              c.attempted[1] == LocalFallback + endpoint
              && PrimaryBase(configured) != LocalFallback
              && !(pc.Returned? && pc.response.Success?)
    ensures pc.Returned? && pc.response.Success? ==> c.result == pc.response
  {
    var primary := PrimaryBase(configured);
    var one := [primary + endpoint];
    var both := one + [LocalFallback + endpoint];
    var same := Normalize(primary) == Normalize(LocalFallback);
    SameBaseIff(configured);
    match pc
    case Returned(pr) =>
      if pr.Success? then Call(pr, one)
      else if Truthy(pr.error) then
        if same then Call(pr, one)
        else
          match fc
          case Returned(fr) =>
            if fr.Success? || Truthy(fr.error) then Call(fr, both) else Call(pr, both)
          case Threw(_) => Call(pr, both)
      else Call(pr, one)
    case Threw(t) =>
      if !same then
        match fc
        case Returned(fr) => Call(fr, both)
        case Threw(_) => Call(Failure(ThrownMessage(t)), both)
      else Call(Failure(ThrownMessage(t)), one)
  }

  /** `apiCall(endpoint)` built on the corrected `AttemptFetch`, when the
      primary and fallback fetches produce `primary` and `fallback` */
  function ApiCall(configured: string, endpoint: string, primary: Exchange, fallback: Exchange): Call {
    ApiCallOn(configured, endpoint, AttemptFetch(primary), AttemptFetch(fallback))
  }

  /** `apiCall(endpoint)` as written, on `AttemptFetchAsWritten` */
  function ApiCallAsWritten(configured: string, endpoint: string, primary: Exchange, fallback: Exchange): Call {
    ApiCallOn(configured, endpoint, AttemptFetchAsWritten(primary), AttemptFetchAsWritten(fallback))
  }

  /** The two clients agree on every call where neither fetch produced a
      `null` error body, so the lemmas about `ApiCall` hold of the code as
      written on all those calls. */
  lemma AsWrittenCallAgreesElsewhere(configured: string, endpoint: string, primary: Exchange, fallback: Exchange)
    ensures !NullErrorBody(primary) && !NullErrorBody(fallback) ==>
              ApiCallAsWritten(configured, endpoint, primary, fallback) == ApiCall(configured, endpoint, primary, fallback)
  {
    AsWrittenDiffersOnlyOnNullErrorBody(primary);
    AsWrittenDiffersOnlyOnNullErrorBody(fallback);
  }

  /** At call level, a primary 500 with body `null` goes down the thrown
      branch as written: with distinct bases the fallback's result is returned
      whatever it is, and if the fallback throws too the call fails with the
      TypeError's text. The corrected client reports `HTTP 500` instead. */
  lemma NullErrorBodyCallAsWritten(configured: string, endpoint: string, t: Thrown)
    requires PrimaryBase(configured) != LocalFallback
    ensures ApiCallAsWritten(configured, endpoint, Response(500, Some(Null)), TransportFailure(t))
            == Call(Failure(Str("Cannot read properties of null (reading 'message')")),
                    [PrimaryBase(configured) + endpoint, LocalFallback + endpoint])
    ensures ApiCall(configured, endpoint, Response(500, Some(Null)), TransportFailure(t))
            == Call(Failure(Str("HTTP 500")),
                    [PrimaryBase(configured) + endpoint, LocalFallback + endpoint])
  {
    NullErrorBodyThrowsAsWritten();
    SameBaseIff(configured);
  }

  /** A 2xx primary response is the call's result; no fallback is tried. */
  lemma PrimarySuccessReturned(configured: string, endpoint: string, status: int,
                               body: Option<Value>, fallback: Exchange)
    requires IsOk(status)
    ensures ApiCall(configured, endpoint, Response(status, body), fallback)
            == Call(Success(Payload(body)), [PrimaryBase(configured) + endpoint])
  {
  }

  /** When the primary base is the fallback base, exactly one attempt is made
      whatever happens, and a transport failure is reported with its message. */
  lemma SameBaseSingleAttempt(configured: string, endpoint: string, primary: Exchange, fallback: Exchange)
    requires PrimaryBase(configured) == LocalFallback
    ensures var c := ApiCall(configured, endpoint, primary, fallback);
            c.attempted == [LocalFallback + endpoint]
            && c.result == (match AttemptFetch(primary)
                            case Returned(r) => r
                            case Threw(t) => Failure(ThrownMessage(t)))
  {
    SameBaseIff(configured);
    AttemptErrorTruthy(primary);
  }

  /** After a primary attempt that returned a failure with a truthy error,
      with distinct bases, the fallback is tried; its outcome replaces the
      primary's when it is a success or a failure with a truthy error. */
  lemma FailedPrimaryTriesFallback(configured: string, endpoint: string, err: Value, fc: Completion)
    requires Truthy(err)
    requires PrimaryBase(configured) != LocalFallback
    ensures var c := ApiCallOn(configured, endpoint, Returned(Failure(err)), fc);
            c.attempted == [PrimaryBase(configured) + endpoint, LocalFallback + endpoint]
            && c.result == (match fc
                            case Returned(fr) => if fr.Success? || Truthy(fr.error) then fr else Failure(err)
                            case Threw(_) => Failure(err))
  {
    SameBaseIff(configured);
  }

  /** After a primary HTTP error with distinct bases, the fallback is tried;
      its result is returned if it returned at all, else the primary's error. */
  lemma HttpErrorTriesFallback(configured: string, endpoint: string, status: int,
                               body: Option<Value>, fallback: Exchange)
    requires !IsOk(status)
    requires PrimaryBase(configured) != LocalFallback
    ensures var c := ApiCall(configured, endpoint, Response(status, body), fallback);
            c.attempted == [PrimaryBase(configured) + endpoint, LocalFallback + endpoint]
            && c.result == (match AttemptFetch(fallback)
                            case Returned(r) => r
                            case Threw(_) => AttemptFetch(Response(status, body)).response)
  {
    var pc := AttemptFetch(Response(status, body));
    HttpErrorAttempt(status, body);
    FailedPrimaryTriesFallback(configured, endpoint, pc.response.error, AttemptFetch(fallback));
    AttemptErrorTruthy(fallback);
  }

  /** After a primary transport failure with distinct bases, the fallback's
      result is returned whatever it is; if the fallback throws too, the call
      fails with the primary's message, or `Network error`. */
  lemma TransportFailureTriesFallback(configured: string, endpoint: string, t: Thrown, fallback: Exchange)
    requires PrimaryBase(configured) != LocalFallback
    ensures var c := ApiCall(configured, endpoint, TransportFailure(t), fallback);
            c.attempted == [PrimaryBase(configured) + endpoint, LocalFallback + endpoint]
            && c.result == (match AttemptFetch(fallback)
                            case Returned(r) => r
                            case Threw(_) => Failure(ThrownMessage(t)))
  {
    SameBaseIff(configured);
  }

  /** `https://api.example.com/` is used without its trailing slash. */
  lemma ExampleBase()
    ensures PrimaryBase("https://api.example.com/") == "https://api.example.com"
  {
    var configured := "https://api.example.com/";
    TrimOfTrimmed(configured);
    var p := "https://api.example.com";
    assert configured == p + Slashes(1);
    NormalizeRemovesTrailingSlashes(p, 1);
  }

  /** Example: primary `https://api.example.com/` unreachable, the fallback
      answers the courts list in an envelope. */
  lemma UnreachablePrimaryExample(t: Thrown)
    ensures var envelope := Obj(map["success" := Bool(true), "message" := Str("ok"),
                                    "data" := Arr([Obj(map["id" := Num(1)])])]);
            ApiCall("https://api.example.com/", "/api/v1/courts/all",
                    TransportFailure(t), Response(200, Some(envelope))).result
            == Success(Arr([Obj(map["id" := Num(1)])]))
  {
    var p := "https://api.example.com";
    ExampleBase();
    assert p != LocalFallback by { assert p[4] != LocalFallback[4]; }
    var courts := Arr([Obj(map["id" := Num(1)])]);
    var fields := map["success" := Bool(true), "message" := Str("ok")];
    EnvelopeUnwrapped(200, fields, courts);
    TransportFailureTriesFallback("https://api.example.com/", "/api/v1/courts/all", t,
                                  Response(200, Some(Obj(fields["data" := courts]))));
  }

  // ---------------------------------------------------------------------
  // Endpoints
  // ---------------------------------------------------------------------

  /** A request's method, path (appended to the base) and JSON body */
  datatype Endpoint = Endpoint(verb: string, path: string, body: Option<Value>)

  const GetVerb := "GET"
  const PostVerb := "POST"

  const DatesPath := "/api/v1/dates"

  function GetAvailableDates(): Endpoint {
    Endpoint(GetVerb, DatesPath, None)
  }

  const CourtsPath := "/api/v1/courts/all"

  function GetAllCourts(): Endpoint {
    Endpoint(GetVerb, CourtsPath, None)
  }

  const TimeslotsPrefix := "/api/v1/timeslots?booking_date="
  const CourtParameter := "&court_id="

  /** The query values are inserted as they are, without encoding. */
  function GetTimeslots(bookingDate: string, courtId: string): Endpoint {
    Endpoint(GetVerb, TimeslotsPrefix + bookingDate + CourtParameter + courtId, None)
  }

  /** The body of `createReservation`. The court, timeslot and date are
      whatever values the page holds for them. */
  datatype ReservationRequest = ReservationRequest(
    courtId: Value, timeslotId: Value, bookingDate: Value,
    customerName: string, customerEmail: string, customerPhone: string,
    notes: Option<string>)

  /** `JSON.stringify` leaves out a member whose value is `undefined` */
  function Member(fields: map<string, Value>, key: string, v: Value): map<string, Value> {
    if v.Undefined? then fields else fields[key := v]
  }

  function ReservationBody(d: ReservationRequest): Value {
    var named := map["customer_name" := Str(d.customerName),
                     "customer_email" := Str(d.customerEmail),
                     "customer_phone" := Str(d.customerPhone)];
    var withIds := Member(Member(Member(named, "court_id", d.courtId),
                                 "timeslot_id", d.timeslotId),
                          "booking_date", d.bookingDate);
    Obj(if d.notes.Some? then withIds["notes" := Str(d.notes.value)] else withIds)
  }

  /** Reads a reservation request back from a body, as the server would */
  function ParseReservationBody(v: Value): Option<ReservationRequest> {
    var name := Get(v, "customer_name");
    var email := Get(v, "customer_email");
    var phone := Get(v, "customer_phone");
    var notes := Get(v, "notes");
    if name.Str? && email.Str? && phone.Str? && (notes.Undefined? || notes.Str?)
    then Some(ReservationRequest(Get(v, "court_id"), Get(v, "timeslot_id"), Get(v, "booking_date"),
                                 name.s, email.s, phone.s,
                                 if notes.Str? then Some(notes.s) else None))
    else None
  }

  /** The request body carries every field of the reservation verbatim. */
  lemma ReservationBodyRoundTrip(d: ReservationRequest)
    ensures ParseReservationBody(ReservationBody(d)) == Some(d)
  {
  }

  const ReservationsPath := "/api/v1/reservations"

  function CreateReservation(d: ReservationRequest): Endpoint {
    Endpoint(PostVerb, ReservationsPath, Some(ReservationBody(d)))
  }

  const ReservationPrefix := "/api/v1/reservations/"

  function GetReservation(id: string): Endpoint {
    Endpoint(GetVerb, ReservationPrefix + id, None)
  }

  const CustomerLookupPrefix := "/api/v1/reservations/customer?email="

  function FindReservationByEmail(email: string): Endpoint {
    Endpoint(GetVerb, CustomerLookupPrefix + email, None)
  }

  const PaymentsPath := "/api/v1/payments/process"

  function ProcessPayment(reservationId: string): Endpoint {
    Endpoint(PostVerb, PaymentsPath,
             Some(Obj(map["reservation_id" := Str(reservationId)])))
  }

  const HealthPath := "/health"

  function CheckApiHealth(): Endpoint {
    Endpoint(GetVerb, HealthPath, None)
  }

  /** Only the reservation and payment endpoints are posted, each with a
      JSON body; the others are plain reads. */
  lemma EndpointVerbs(d: ReservationRequest, reservationId: string, id: string, email: string,
                      date: string, court: string)
    ensures CreateReservation(d).verb == PostVerb && CreateReservation(d).body.Some?
    ensures ProcessPayment(reservationId).verb == PostVerb
            && ProcessPayment(reservationId).body == Some(Obj(map["reservation_id" := Str(reservationId)]))
    ensures forall e | e in [GetAvailableDates(), GetAllCourts(), GetTimeslots(date, court),
                             GetReservation(id), FindReservationByEmail(email), CheckApiHealth()] ::
              e.verb == GetVerb && e.body.None?
  {
  }

  /** The argument of a parameterised endpoint is recoverable from its path:
      the builders insert it verbatim after a fixed prefix. */
  lemma EndpointArgumentsRecoverable(id: string, email: string, date: string, court: string)
    ensures GetReservation(id).path[|ReservationPrefix|..] == id
    ensures FindReservationByEmail(email).path[|CustomerLookupPrefix|..] == email
    ensures var p := GetTimeslots(date, court).path;
            p[|TimeslotsPrefix|..|TimeslotsPrefix| + |date|] == date
            && p[|p| - |court|..] == court
  {
  }
}
