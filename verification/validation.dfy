/**
 * The three ordered checks the create-booking route runs on its body before
 * touching the store.
 */
module Validation {
  import opened Wrappers
  import opened Dates
  import opened JsValues
  import opened Entities

  /** `new Date(v)`: a request date is a "YYYY-MM-DD" string; anything else is an invalid date. */
  function DateOf(v: JsValue): (r: Option<Day>)
    ensures r.Some? ==> v.Str? && ValidDay(r.value)
  {
    match v
    case Str(s) =>
      ParseDay(s)
    case _ => None
  }

  datatype Verdict = Accepted(checkIn: Day, checkOut: Day) | Rejected(reason: ApiError)

  /**
   * Presence (JavaScript truthiness), then both dates parse, then check-in
   * strictly before check-out; the first failing check decides the error.
   */
  function ValidateBooking(roomId: JsValue, checkIn: JsValue, checkOut: JsValue): (r: Verdict)
    ensures r == Rejected(MissingField) <==> !(Truthy(roomId) && Truthy(checkIn) && Truthy(checkOut))
    ensures r == Rejected(InvalidDate) <==>
      && Truthy(roomId) && Truthy(checkIn) && Truthy(checkOut)
      && (DateOf(checkIn).None? || DateOf(checkOut).None?)
    ensures r == Rejected(CheckInNotBeforeCheckOut) <==>
      && Truthy(roomId) && DateOf(checkIn).Some? && DateOf(checkOut).Some?
      && !Before(DateOf(checkIn).value, DateOf(checkOut).value)
    ensures r.Rejected? ==> r.reason in {MissingField, InvalidDate, CheckInNotBeforeCheckOut}
    ensures r.Accepted? ==>
      && Truthy(roomId)
      && DateOf(checkIn) == Some(r.checkIn) && DateOf(checkOut) == Some(r.checkOut)
      && Before(r.checkIn, r.checkOut)
  {
    if !Truthy(roomId) || !Truthy(checkIn) || !Truthy(checkOut) then Rejected(MissingField)
    else
      var ci, co := DateOf(checkIn), DateOf(checkOut);
      if ci.None? || co.None? then Rejected(InvalidDate)
      else if !Before(ci.value, co.value) then Rejected(CheckInNotBeforeCheckOut)
      else Accepted(ci.value, co.value)
  }

  /**
   * A stay of zero nights or a reversed range is refused: `checkIn >= checkOut`
   * on two parsed dates is exactly "same day or later".
   */
  lemma RejectsEmptyOrReversedStay(roomId: JsValue, checkIn: string, checkOut: string)
    requires Truthy(roomId)
    requires ParseDay(checkIn).Some? && ParseDay(checkOut).Some?
    requires ParseDay(checkIn) == ParseDay(checkOut) || Before(ParseDay(checkOut).value, ParseDay(checkIn).value)
    ensures ValidateBooking(roomId, Str(checkIn), Str(checkOut)) == Rejected(CheckInNotBeforeCheckOut)
  {
    FormatParse(checkIn);
    FormatParse(checkOut);
    BeforeIsStrictTotalOrder(ParseDay(checkIn).value, ParseDay(checkOut).value, ParseDay(checkIn).value);
  }

  /** Every well-formed stay of at least one night is accepted with exactly the days sent. */
  lemma AcceptsEveryStay(roomId: JsValue, checkIn: Day, checkOut: Day)
    requires Truthy(roomId)
    requires ValidDay(checkIn) && ValidDay(checkOut) && Before(checkIn, checkOut)
    ensures ValidateBooking(roomId, Str(FormatDay(checkIn)), Str(FormatDay(checkOut))) == Accepted(checkIn, checkOut)
  {
    ParseFormat(checkIn);
    ParseFormat(checkOut);
  }
}
