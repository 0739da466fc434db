/** The confirmation summary of components/confirmation-step.tsx: what each
    line of the summary shows for the values the wizard passes in, when the
    notes block and the error alert appear, and the two buttons. */
module ConfirmationStep {
  import opened JsValues

  /** The props the wizard passes to the step; `null` props are `Null`, an
      absent `notes` or `error` is `Undefined`. */
  datatype Props = Props(
    selectedDate: Value, selectedCourtName: Value,
    selectedStartTime: Value, selectedEndTime: Value, courtPrice: Value,
    customerName: Value, customerEmail: Value, customerPhone: Value,
    notes: Value, isLoading: bool, error: Value)

  /** A shown value: literal text, a value inserted as it is, or a value
      formatted by the locale (`toLocaleDateString`, `Intl.NumberFormat`) */
  datatype Shown = Text(text: string) | Raw(value: Value) | Localised(value: Value)

  /** `renderValue(value, fallback)`: the fallback for null, undefined and the
      empty string, else the value itself */
  function RenderValue(value: Value, fallback: string): (r: Value)
    ensures (Nullish(value) || value == Str("")) ==> r == Str(fallback)
    ensures !(Nullish(value) || value == Str("")) ==> r == value
  {
    if value.Null? || value.Undefined? || value == Str("") then Str(fallback) else value
  }

  const DefaultFallback := "N/A"

  /** `formatCurrency`: only `null` and `undefined` count as missing */
  function FormatCurrency(amount: Value): (s: Shown)
    ensures s == Text("N/A") <==> Nullish(amount)
    ensures !Nullish(amount) ==> s == Localised(amount)
  {
    if amount.Null? || amount.Undefined? then Text("N/A") else Localised(amount)
  }

  /** The time line: `"<start> - <end>"` when both are truthy */
  function TimeText(start: Value, end: Value): (s: Shown)
    ensures Truthy(start) && Truthy(end) ==> s == Text(ToStr(start) + " - " + ToStr(end))
    ensures !(Truthy(start) && Truthy(end)) ==> s == Text("N/A")
  {
    if Truthy(start) && Truthy(end) then Text(ToStr(start) + " - " + ToStr(end)) else Text("N/A")
  }

  /** The date line: the locale's rendering of a truthy date, else `N/A` */
  function DateText(date: Value): (s: Shown)
    ensures s.Text? <==> !Truthy(date)
    ensures !Truthy(date) ==> s == Text("N/A")
    ensures Truthy(date) ==> s == Localised(date)
  {
    if Truthy(date) then Localised(date) else Text("N/A")
  }

  /** What the step shows */
  datatype Summary = Summary(
    date: Shown, time: Shown, court: Shown, price: Shown,
    name: Shown, email: Shown, phone: Shown,
    notes: Option<Shown>, alert: Option<Value>,
    editDisabled: bool, confirmDisabled: bool, confirmLabel: string)

  function Render(p: Props): Summary {
    Summary(
      DateText(p.selectedDate),
      TimeText(p.selectedStartTime, p.selectedEndTime),
      Raw(RenderValue(p.selectedCourtName, DefaultFallback)),
      FormatCurrency(p.courtPrice),
      Raw(RenderValue(p.customerName, "-")),
      Raw(RenderValue(p.customerEmail, "-")),
      Raw(RenderValue(p.customerPhone, "-")),
      if Truthy(p.notes) then Some(Raw(RenderValue(p.notes, "-"))) else None,
      if Truthy(p.error) then Some(p.error) else None,
      p.isLoading, p.isLoading,
      if p.isLoading then "Processing..." else "Make Reservation")
  }

  /** `renderValue` changes exactly the missing values. */
  lemma RenderValueKeepsPresent(value: Value, fallback: string)
    ensures RenderValue(value, fallback) == value
            <==> !(Nullish(value) || value == Str("")) || value == Str(fallback)
  {
  }

  /** The court falls back to `N/A`; the customer's name, email and phone to `-`. */
  lemma SummaryFallbacks(p: Props)
    ensures var s := Render(p);
            && (Nullish(p.selectedCourtName) || p.selectedCourtName == Str("") ==> s.court == Raw(Str("N/A")))
            && (Nullish(p.customerName) || p.customerName == Str("") ==> s.name == Raw(Str("-")))
            && (Nullish(p.customerEmail) || p.customerEmail == Str("") ==> s.email == Raw(Str("-")))
            && (Nullish(p.customerPhone) || p.customerPhone == Str("") ==> s.phone == Raw(Str("-")))
  {
  }

  /** A price of 0 is formatted like any other amount: only a missing price reads `N/A`. */
  lemma ZeroPriceIsFormatted(p: Props)
    requires p.courtPrice == Num(0)
    ensures Render(p).price == Localised(Num(0))
  {
  }

  /** The notes block appears exactly for truthy notes, and then shows them unchanged. */
  lemma NotesShownIffTruthy(p: Props)
    ensures Render(p).notes.Some? <==> Truthy(p.notes)
    ensures Truthy(p.notes) ==> Render(p).notes == Some(Raw(p.notes))
  {
  }

  /** The alert appears exactly for a truthy error, and shows it. */
  lemma AlertShownIffTruthyError(p: Props)
    ensures Render(p).alert.Some? <==> Truthy(p.error)
    ensures Render(p).alert.Some? ==> Render(p).alert.value == p.error
  {
  }

  /** While loading both buttons are disabled and the confirm button reads
      `Processing...`; otherwise both are enabled and it reads `Make Reservation`. */
  lemma ButtonsFollowLoading(p: Props)
    ensures var s := Render(p);
            && s.editDisabled == p.isLoading && s.confirmDisabled == p.isLoading
            && (s.confirmLabel == "Processing..." <==> p.isLoading)
            && (!p.isLoading ==> s.confirmLabel == "Make Reservation")
  {
  }

  /** The time line is `N/A` as soon as either end is missing. */
  lemma TimeNeedsBothEnds(start: Value, end: Value)
    ensures TimeText(start, end) == Text("N/A") <==> !(Truthy(start) && Truthy(end))
  {
    if Truthy(start) && Truthy(end) {
      var a := ToStr(start);
      var t := a + " - " + ToStr(end);
      if |t| == 3 {
        assert a == [] && t[0] == ' ';
      }
      assert t != "N/A";
    }
  }
}
