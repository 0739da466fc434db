/** The booking wizard of app/page.tsx: five steps (date, court, time,
    customer details, confirmation), one handler per step that records the
    choice and moves on, an edit that goes back to the first step, and the
    confirm handler that checks the selections, sends the reservation and
    either navigates to it or shows an error. */
module BookingWizard {
  import opened JsValues
  import opened Api
  import CustomerInfoStep
  import ConfirmationStep

  datatype Step = DateStep | CourtStep | TimeStep | InfoStep | ConfirmStep

  /** The position of a step in the wizard */
  function Rank(s: Step): nat {
    match s
    case DateStep => 0
    case CourtStep => 1
    case TimeStep => 2
    case InfoStep => 3
    case ConfirmStep => 4
  }

  const MissingDetails := "Missing reservation details"
  const CreateFailed := "Failed to create reservation"
  const ReservationPage := "/reservation/"

  /** The component's state hooks, plus the path the router was sent to.
      The selections hold whatever values the steps reported (`Null` before
      any choice); `error` holds `Null` or the message shown. */
  datatype WizardState = WizardState(
    selectedDate: Value, selectedCourtId: Value, selectedCourtName: Value, courtPrice: Value,
    selectedTimeslotId: Value, selectedStartTime: Value, selectedEndTime: Value,
    customerInfo: Option<CustomerInfoStep.CustomerInfo>,
    currentStep: Step, isLoading: bool, error: Value, navigatedTo: Option<string>)

  function Initial(): WizardState {
    WizardState(Null, Null, Null, Null, Null, Null, Null, None, DateStep, false, Null, None)
  }

  // ---------------------------------------------------------------------
  // The handlers, as functions of the state
  // ---------------------------------------------------------------------

  function DateSelected(s: WizardState, date: Value): WizardState {
    s.(selectedDate := date, currentStep := CourtStep, error := Null)
  }

  function CourtSelected(s: WizardState, courtId: Value, courtName: Value, price: Value): WizardState {
    s.(selectedCourtId := courtId, selectedCourtName := courtName, courtPrice := price,
       currentStep := TimeStep, error := Null)
  }

  function TimeslotSelected(s: WizardState, timeslotId: Value, startTime: Value, endTime: Value): WizardState {
    s.(selectedTimeslotId := timeslotId, selectedStartTime := startTime, selectedEndTime := endTime,
       currentStep := InfoStep, error := Null)
  }

  function InfoSubmitted(s: WizardState, info: CustomerInfoStep.CustomerInfo): WizardState {
    s.(customerInfo := Some(info), currentStep := ConfirmStep, error := Null)
  }

  function Edited(s: WizardState): WizardState {
    s.(currentStep := DateStep)
  }

  /** The confirm handler's guard: date, court id and timeslot id truthy and
      the customer details present */
  predicate ReadyToConfirm(s: WizardState) {
    Truthy(s.selectedDate) && Truthy(s.selectedCourtId) && Truthy(s.selectedTimeslotId)
    && s.customerInfo.Some?
  }

  /** The body sent by `createReservation` */
  function RequestOf(s: WizardState): ReservationRequest
    requires ReadyToConfirm(s)
  {
    var info := s.customerInfo.value;
    ReservationRequest(s.selectedCourtId, s.selectedTimeslotId, s.selectedDate,
                       info.customerName, info.customerEmail, info.customerPhone,
                       Some(info.notes))
  }

  /** The confirm handler up to the request: the state while it is pending,
      and the request, if one is sent */
  function ConfirmStarted(s: WizardState): (WizardState, Option<ReservationRequest>) {
    if !ReadyToConfirm(s) then (s.(error := Str(MissingDetails)), None)
    else (s.(isLoading := true, error := Null), Some(RequestOf(s)))
  }

  /** The confirm handler once `createReservation` has answered `result` */
  function ConfirmSettled(s: WizardState, result: ApiResponse): WizardState {
    if result.Success? && Truthy(result.data) then
      s.(navigatedTo := Some(ReservationPage + ToStr(Get(result.data, "id"))), isLoading := false)
    else
      var message := if result.Failure? && Truthy(result.error) then result.error else Str(CreateFailed);
      s.(error := message, isLoading := false)
  }

  // ---------------------------------------------------------------------
  // Properties of the handlers
  // ---------------------------------------------------------------------

  /** Each selection handler moves to the step after its own and clears the
      error, whatever step the wizard was at. */
  lemma HandlersAdvance(s: WizardState, v1: Value, v2: Value, v3: Value,
                        info: CustomerInfoStep.CustomerInfo)
    ensures var t := DateSelected(s, v1); t.currentStep == CourtStep && t.error == Null
    ensures var t := CourtSelected(s, v1, v2, v3); t.currentStep == TimeStep && t.error == Null
    ensures var t := TimeslotSelected(s, v1, v2, v3); t.currentStep == InfoStep && t.error == Null
    ensures var t := InfoSubmitted(s, info); t.currentStep == ConfirmStep && t.error == Null
    ensures Rank(DateSelected(s, v1).currentStep) == Rank(DateStep) + 1
            && Rank(CourtSelected(s, v1, v2, v3).currentStep) == Rank(CourtStep) + 1
            && Rank(TimeslotSelected(s, v1, v2, v3).currentStep) == Rank(TimeStep) + 1
            && Rank(InfoSubmitted(s, info).currentStep) == Rank(InfoStep) + 1
  {
  }

  /** Choosing a new date, even from the confirmation step, goes to the court
      step and keeps the court, the timeslot and the customer details. */
  lemma NewDateKeepsLaterChoices(s: WizardState, date: Value)
    ensures var t := DateSelected(s, date);
            && t.currentStep == CourtStep && t.selectedDate == date
            && t.selectedCourtId == s.selectedCourtId && t.selectedCourtName == s.selectedCourtName
            && t.courtPrice == s.courtPrice
            && t.selectedTimeslotId == s.selectedTimeslotId
            && t.selectedStartTime == s.selectedStartTime && t.selectedEndTime == s.selectedEndTime
            && t.customerInfo == s.customerInfo
            && t.isLoading == s.isLoading && t.navigatedTo == s.navigatedTo
  {
  }

  /** Editing only rewinds the step. */
  lemma EditOnlyRewinds(s: WizardState)
    ensures Edited(s).currentStep == DateStep
    ensures Edited(s).(currentStep := s.currentStep) == s
  {
  }

  /** Without every detail, confirming only sets the error: no request, and
      `isLoading` and everything else stay as they were. */
  lemma IncompleteConfirmSendsNothing(s: WizardState)
    requires !Truthy(s.selectedDate) || !Truthy(s.selectedCourtId)
             || !Truthy(s.selectedTimeslotId) || s.customerInfo.None?
    ensures ConfirmStarted(s).1 == None
    ensures ConfirmStarted(s).0 == s.(error := Str(MissingDetails))
  {
  }

  /** A court or timeslot id of 0, or an empty date, counts as missing. */
  lemma FalsyIdsCountAsMissing(s: WizardState)
    requires s.selectedCourtId == Num(0) || s.selectedTimeslotId == Num(0) || s.selectedDate == Str("")
    ensures ConfirmStarted(s).1 == None
  {
  }

  /** Walking the four steps with truthy choices and then confirming sends a
      request that carries those choices and details verbatim. */
  lemma StepsThenConfirm(date: Value, courtId: Value, courtName: Value, price: Value,
                         timeslotId: Value, startTime: Value, endTime: Value,
                         info: CustomerInfoStep.CustomerInfo)
    requires Truthy(date) && Truthy(courtId) && Truthy(timeslotId)
    ensures var s := InfoSubmitted(TimeslotSelected(CourtSelected(DateSelected(
                       Initial(), date), courtId, courtName, price), timeslotId, startTime, endTime), info);
            && s.currentStep == ConfirmStep
            && ConfirmStarted(s).1
               == Some(ReservationRequest(courtId, timeslotId, date, info.customerName,
                                          info.customerEmail, info.customerPhone, Some(info.notes)))
            && ConfirmStarted(s).0.isLoading && ConfirmStarted(s).0.error == Null
            && ParseReservationBody(ReservationBody(ConfirmStarted(s).1.value)) == ConfirmStarted(s).1
  {
    var s := InfoSubmitted(TimeslotSelected(CourtSelected(DateSelected(
               Initial(), date), courtId, courtName, price), timeslotId, startTime, endTime), info);
    assert ReadyToConfirm(s);
    ReservationBodyRoundTrip(RequestOf(s));
  }

  /** Once the answer arrives the wizard is no longer loading. A truthy
      payload navigates to its reservation page and leaves the error alone;
      anything else shows the answer's error, or the fixed message when that
      error is falsy, and does not navigate. */
  lemma SettledOutcomes(s: WizardState, result: ApiResponse)
    ensures !ConfirmSettled(s, result).isLoading
    ensures var t := ConfirmSettled(s, result);
            result.Success? && Truthy(result.data) ==>
              t.navigatedTo == Some(ReservationPage + ToStr(Get(result.data, "id")))
              && t.error == s.error
    ensures var t := ConfirmSettled(s, result);
            !(result.Success? && Truthy(result.data)) ==>
              t.navigatedTo == s.navigatedTo && Truthy(t.error)
              && (result.Failure? && Truthy(result.error) ==> t.error == result.error)
              && (!(result.Failure? && Truthy(result.error)) ==> t.error == Str(CreateFailed))
  {
  }

  /** A created reservation whose payload is an object with a numeric id
      navigates to that id's page. */
  lemma CreatedReservationPage(s: WizardState, id: int, fields: map<string, Value>)
    requires "id" in fields && fields["id"] == Num(id)
    ensures ConfirmSettled(s, Success(Obj(fields))).navigatedTo
            == Some(ReservationPage + IntToString(id))
  {
  }

  // ---------------------------------------------------------------------
  // What is rendered
  // ---------------------------------------------------------------------

  datatype Panel = DatePanel | CourtPanel | TimeslotPanel | CustomerInfoPanel | ConfirmationPanel

  function PanelRank(p: Panel): nat {
    match p
    case DatePanel => 0
    case CourtPanel => 1
    case TimeslotPanel => 2
    case CustomerInfoPanel => 3
    case ConfirmationPanel => 4
  }

  /** The conditions around each panel, as written */
  predicate PanelShown(p: Panel, step: Step) {
    match p
    case DatePanel =>
      step == DateStep || step == CourtStep || step == TimeStep || step == InfoStep || step == ConfirmStep
    case CourtPanel => step == CourtStep || step == TimeStep || step == InfoStep || step == ConfirmStep
    case TimeslotPanel => step == TimeStep || step == InfoStep || step == ConfirmStep
    case CustomerInfoPanel => step == InfoStep || step == ConfirmStep
    case ConfirmationPanel => step == ConfirmStep
  }

  /** The panels are cumulative: a panel is shown exactly when the current
      step is at or after the panel's own step. */
  lemma PanelsCumulative(p: Panel, step: Step)
    ensures PanelShown(p, step) <==> PanelRank(p) <= Rank(step)
  {
  }

  /** The `disabled` props of the court, timeslot and customer panels */
  function CourtDisabled(s: WizardState): bool {
    !Truthy(s.selectedDate)
  }

  function TimeslotDisabled(s: WizardState): bool {
    !Truthy(s.selectedDate) || !Truthy(s.selectedCourtId)
  }

  function CustomerInfoDisabled(s: WizardState): bool {
    !Truthy(s.selectedDate) || !Truthy(s.selectedCourtId) || !Truthy(s.selectedTimeslotId)
  }

  /** Each panel's `disabled` condition implies the next one's, and the
      customer panel is enabled exactly when the confirm guard's three
      selections are truthy. */
  lemma DisabledCascade(s: WizardState, info: CustomerInfoStep.CustomerInfo)
    ensures CourtDisabled(s) ==> TimeslotDisabled(s)
    ensures TimeslotDisabled(s) ==> CustomerInfoDisabled(s)
    ensures !CustomerInfoDisabled(s) <==> ReadyToConfirm(s.(customerInfo := Some(info)))
  {
  }

  /** `x || null` */
  function OrNull(v: Value): Value {
    if Truthy(v) then v else Null
  }

  /** The props given to the confirmation step */
  function ConfirmationProps(s: WizardState): ConfirmationStep.Props {
    var name := if s.customerInfo.Some? then OrNull(Str(s.customerInfo.value.customerName)) else Null;
    var email := if s.customerInfo.Some? then OrNull(Str(s.customerInfo.value.customerEmail)) else Null;
    var phone := if s.customerInfo.Some? then OrNull(Str(s.customerInfo.value.customerPhone)) else Null;
    var notes := if s.customerInfo.Some? then Str(s.customerInfo.value.notes) else Undefined;
    ConfirmationStep.Props(s.selectedDate, s.selectedCourtName, s.selectedStartTime, s.selectedEndTime,
                           s.courtPrice, name, email, phone, notes, s.isLoading, s.error)
  }

  /** A confirm that is sent disables both confirmation buttons while the
      request is pending, and clears the alert. */
  lemma PendingConfirmDisablesButtons(s: WizardState)
    requires ReadyToConfirm(s)
    ensures var r := ConfirmationStep.Render(ConfirmationProps(ConfirmStarted(s).0));
            r.editDisabled && r.confirmDisabled && r.confirmLabel == "Processing..." && r.alert.None?
  {
  }

  /** Details accepted by the customer form appear unchanged on the
      confirmation step, and its notes block appears exactly for non-empty notes. */
  lemma SubmittedDetailsShown(s: WizardState, nameInput: string, emailInput: string,
                              phoneInput: string, notesInput: string)
    requires CustomerInfoStep.SubmitErrors(Trim(nameInput), Trim(emailInput), Trim(phoneInput)) == map[]
    ensures var info := CustomerInfoStep.CustomerInfo(Trim(nameInput), Trim(emailInput),
                                                      Trim(phoneInput), Trim(notesInput));
            var r := ConfirmationStep.Render(ConfirmationProps(InfoSubmitted(s, info)));
            && r.name == ConfirmationStep.Raw(Str(Trim(nameInput)))
            && r.email == ConfirmationStep.Raw(Str(Trim(emailInput)))
            && r.phone == ConfirmationStep.Raw(Str(Trim(phoneInput)))
            && (r.notes.Some? <==> Trim(notesInput) != "")
  {
    CustomerInfoStep.NoErrorsIffAllValid(Trim(nameInput), Trim(emailInput), Trim(phoneInput));
  }

  // ---------------------------------------------------------------------
  // The component
  // ---------------------------------------------------------------------

  class Home {
    var selectedDate: Value
    var selectedCourtId: Value
    var selectedCourtName: Value
    var courtPrice: Value
    var selectedTimeslotId: Value
    var selectedStartTime: Value
    var selectedEndTime: Value
    var customerInfo: Option<CustomerInfoStep.CustomerInfo>
    var currentStep: Step
    var isLoading: bool
    var error: Value
    var navigatedTo: Option<string>

    function State(): WizardState
      reads this
    {
      WizardState(selectedDate, selectedCourtId, selectedCourtName, courtPrice,
                  selectedTimeslotId, selectedStartTime, selectedEndTime,
                  customerInfo, currentStep, isLoading, error, navigatedTo)
    }

    constructor()
      ensures State() == Initial()
    {
      selectedDate, selectedCourtId, selectedCourtName, courtPrice := Null, Null, Null, Null;
      selectedTimeslotId, selectedStartTime, selectedEndTime := Null, Null, Null;
      customerInfo := None;
      currentStep := DateStep;
      isLoading := false;
      error := Null;
      navigatedTo := None;
    }

    method HandleDateSelected(date: Value)
      modifies this
      ensures State() == DateSelected(old(State()), date)
    {
      selectedDate := date;
      currentStep := CourtStep;
      error := Null;
    }

    method HandleCourtSelected(courtId: Value, courtName: Value, price: Value)
      modifies this
      ensures State() == CourtSelected(old(State()), courtId, courtName, price)
    {
      selectedCourtId := courtId;
      selectedCourtName := courtName;
      courtPrice := price;
      currentStep := TimeStep;
      error := Null;
    }

    method HandleTimeslotSelected(timeslotId: Value, startTime: Value, endTime: Value)
      modifies this
      ensures State() == TimeslotSelected(old(State()), timeslotId, startTime, endTime)
    {
      selectedTimeslotId := timeslotId;
      selectedStartTime := startTime;
      selectedEndTime := endTime;
      currentStep := InfoStep;
      error := Null;
    }

    method HandleCustomerInfoSubmitted(info: CustomerInfoStep.CustomerInfo)
      modifies this
      ensures State() == InfoSubmitted(old(State()), info)
    {
      customerInfo := Some(info);
      currentStep := ConfirmStep;
      error := Null;
    }

    /** `handleConfirm` up to the `await`: returns the request it sends, if any */
    method HandleConfirm() returns (request: Option<ReservationRequest>)
      modifies this
      ensures (State(), request) == ConfirmStarted(old(State()))
    {
      if !Truthy(selectedDate) || !Truthy(selectedCourtId) || !Truthy(selectedTimeslotId)
         || customerInfo.None? {
        error := Str(MissingDetails);
        return None;
      }
      isLoading := true;
      error := Null;
      var info := customerInfo.value;
      request := Some(ReservationRequest(selectedCourtId, selectedTimeslotId, selectedDate,
                                         info.customerName, info.customerEmail, info.customerPhone,
                                         Some(info.notes)));
    }

    /** `handleConfirm` after `createReservation` answers `result` */
    method ConfirmAnswered(result: ApiResponse)
      modifies this
      ensures State() == ConfirmSettled(old(State()), result)
    {
      if result.Success? && Truthy(result.data) {
        navigatedTo := Some(ReservationPage + ToStr(Get(result.data, "id")));
      } else {
        error := if result.Failure? && Truthy(result.error) then result.error else Str(CreateFailed);
      }
      isLoading := false;
    }

    method HandleEdit()
      modifies this
      ensures State() == Edited(old(State()))
    {
      currentStep := DateStep;
    }
  }
}
