/**
 * The donation-date rule of the donation form. Dates are day numbers: the
 * appointment's date-only string and the picked date compare at day
 * granularity.
 */
module DonationDate {
  import opened Optional

  /** `isBefore(value, appointmentDate)`. */
  predicate IsBefore(day: int, appointmentDay: int) {
    day < appointmentDay
  }

  /**
   * The custom validator of the donation-date field: an empty value passes
   * (the `required` rule reports it), no appointment date accepts anything,
   * otherwise a date strictly before the appointment date is rejected.
   */
  function ValidatorAccepts(value: Option<int>, appointmentDate: Option<int>): (ok: bool)
    ensures ok <==> value.None? || appointmentDate.None? || value.value >= appointmentDate.value
  {
    if value.None? then true
    else if appointmentDate.Some? && IsBefore(value.value, appointmentDate.value) then false
    else true
  }

  /**
   * The date picker's `disabledDate`: without an appointment date nothing is
   * disabled; otherwise exactly the days before it are.
   */
  function DisabledDate(current: Option<int>, appointmentDate: Option<int>): (d: bool)
    ensures appointmentDate.None? ==> !d
    ensures d <==> appointmentDate.Some? && current.Some? && current.value < appointmentDate.value
  {
    if appointmentDate.None? then false
    else current.Some? && IsBefore(current.value, appointmentDate.value)
  }

  /** The picker disables exactly the days the validator would reject. */
  lemma DisabledIffRejected(day: int, appointmentDate: Option<int>)
    ensures DisabledDate(Some(day), appointmentDate) <==> !ValidatorAccepts(Some(day), appointmentDate)
  {
  }
}
