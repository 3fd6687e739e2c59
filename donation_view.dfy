/**
 * The view state of the appointment administration screen: which appointment
 * is selected, which of the two modals is open, the edit-mode switch, the
 * donation form's field store and the table's search and sort settings. Each
 * user action is a method; the result of every remote call and the answer of
 * every confirmation dialog arrive as inputs, and the requests the action
 * dispatches come back as its result.
 */
module DonationView {
  import opened Optional
  import opened AppointmentList
  import opened DonationDate

  /**
   * A value held by the donation form's field store: a number, a text, a day
   * picked in the date picker (a dayjs value), a date parsed from a loaded
   * donation detail (a native `Date`, which has no `toDate`), or null.
   */
  datatype Value = Num(n: int) | Text(s: string) | Day(day: int) | Loaded(date: int) | Null

  /** A donation detail as the lookup by appointment id returns it. */
  datatype DonationDetail = DonationDetail(
    donationId: int,
    donDate: Option<int>,
    location: string,
    bloodType: int,
    donAmount: int,
    userId: int,
    notes: string)

  /** How a create, update or status-change request settled. */
  datatype Outcome = Succeeded | Failed

  /** How the donation-detail lookup settled. */
  datatype Lookup = Found(detail: DonationDetail) | NotFound | LookupFailed

  /** A request this view dispatches to the remote gateway. */
  datatype Request =
    | UpdateStatus(id: nat, status: string)
    | FetchDetail(id: nat)
    | CreateDetail(payload: map<string, Value>)
    | UpdateDetail(id: nat, payload: map<string, Value>)

  const DON_AMOUNT: string := "donAmount"
  const DON_DATE: string := "donDate"
  const BLOOD_TYPE: string := "bloodType"

  /** The three form items; `onFinish` receives exactly these fields. */
  const FORM_ITEMS: set<string> := {DON_AMOUNT, DON_DATE, BLOOD_TYPE}

  /** The keys `setFieldsValue` writes when a donation detail is found. */
  const DETAIL_KEYS: set<string> := {"donationId", DON_DATE, "location", BLOOD_TYPE, DON_AMOUNT, "userId", "notes"}

  /** The keys the submit handler writes over the submitted values. */
  const PAYLOAD_KEYS: set<string> := {"appointmentId", "staffId", "memberId"}

  // ------------------------------------------------------------ form values

  /**
   * The object handed to `setFieldsValue` when a donation detail is found. The
   * stored date goes through `parseISO`, so the date field receives a native
   * `Date` (`Loaded`), not a picker value.
   */
  function DetailFields(d: DonationDetail): (r: map<string, Value>)
    ensures r.Keys == DETAIL_KEYS && FORM_ITEMS <= r.Keys
    ensures r[DON_AMOUNT] == Num(d.donAmount) && r[BLOOD_TYPE] == Num(d.bloodType)
    ensures r[DON_DATE] == if d.donDate.Some? then Loaded(d.donDate.value) else Null
    ensures r["donationId"] == Num(d.donationId) && r["userId"] == Num(d.userId)
    ensures r["location"] == Text(d.location) && r["notes"] == Text(d.notes)
  {
    map[
      "donationId" := Num(d.donationId),
      DON_DATE := (if d.donDate.Some? then Loaded(d.donDate.value) else Null),
      "location" := Text(d.location),
      BLOOD_TYPE := Num(d.bloodType),
      DON_AMOUNT := Num(d.donAmount),
      "userId" := Num(d.userId),
      "notes" := Text(d.notes)]
  }

  /** The date field holds a picked day, a loaded date or nothing. */
  predicate DateFieldWellFormed(fields: map<string, Value>) {
    DON_DATE in fields ==> fields[DON_DATE].Day? || fields[DON_DATE].Loaded? || fields[DON_DATE].Null?
  }

  /** What the form passes to `onFinish`: the values of its three items. */
  function Submitted(fields: map<string, Value>): (values: map<string, Value>)
    ensures values.Keys == fields.Keys * FORM_ITEMS
    ensures forall k :: k in values ==> values[k] == fields[k]
  {
    map k | k in fields && k in FORM_ITEMS :: fields[k]
  }

  /** antd's `required` rule: the field is set, and neither null nor the empty string. */
  predicate Present(values: map<string, Value>, name: string) {
    name in values && values[name] != Null && values[name] != Text("")
  }

  /** JavaScript falsiness of a field value. */
  predicate Falsy(v: Value) {
    v == Null || v == Num(0) || v == Text("")
  }

  /** The appointment date the date rule compares with: that of the selection, if it has one. */
  function SelectedDate(selected: Option<Appointment>): (date: Option<int>)
    ensures selected.None? ==> date.None?
    ensures selected.Some? ==> date == selected.value.date
  {
    if selected.Some? then selected.value.date else None
  }

  /**
   * The donation-date field's custom validator applied to a field value. A
   * falsy value passes, and so does any value when there is no appointment
   * date, because `value.toDate()` is then never reached. A picked day is
   * checked by `ValidatorAccepts`. Any other value, such as a loaded `Date`,
   * has no `toDate`: the validator throws and the field fails.
   */
  function DateRuleAccepts(v: Value, appointmentDate: Option<int>): (ok: bool)
    ensures Falsy(v) || appointmentDate.None? ==> ok
    ensures v.Day? ==> (ok <==> ValidatorAccepts(Some(v.day), appointmentDate))
    ensures v.Loaded? ==> (ok <==> appointmentDate.None?)
  {
    if Falsy(v) then true
    else if appointmentDate.None? then true
    else if v.Day? then ValidatorAccepts(Some(v.day), appointmentDate)
    else false
  }

  /**
   * All of the form's rules: the three `required` rules and the date
   * validator. A form that passes holds the three items, none of them empty,
   * and, when the appointment has a date, a picked day no earlier than it.
   */
  function FormAccepts(values: map<string, Value>, appointmentDate: Option<int>): (ok: bool)
    ensures ok ==> FORM_ITEMS <= values.Keys
    ensures ok ==> forall k :: k in FORM_ITEMS ==> values[k] != Null && values[k] != Text("")
    ensures ok && DateFieldWellFormed(values) && appointmentDate.Some? ==>
              values[DON_DATE].Day? && values[DON_DATE].day >= appointmentDate.value
  {
    && Present(values, DON_AMOUNT)
    && Present(values, DON_DATE)
    && DateRuleAccepts(values[DON_DATE], appointmentDate)
    && Present(values, BLOOD_TYPE)
  }

  /**
   * The choices the form's inputs offer: three volumes, a day the picker
   * enables (or cleared), four blood types. An offered volume or blood type
   * satisfies its `required` rule, and an offered date-field value satisfies
   * the date rule.
   */
  function Choosable(name: string, v: Value, appointmentDate: Option<int>): (ok: bool)
    ensures ok ==> name in FORM_ITEMS
    ensures ok && name != DON_DATE ==> v.Num? && v.n > 0
    ensures ok && name == DON_DATE ==> DateRuleAccepts(v, appointmentDate) && (v.Day? || v.Null?)
  {
    if name == DON_AMOUNT then v in {Num(200), Num(350), Num(500)}
    else if name == DON_DATE then v == Null || (v.Day? && !DisabledDate(Some(v.day), appointmentDate))
    else if name == BLOOD_TYPE then v in {Num(1), Num(2), Num(3), Num(4)}
    else false
  }

  // ------------------------------------------------------- loaded-date finding

  /**
   * As written, a found detail that has a date can never be saved against an
   * appointment that has one: the loaded `Date` fails the date validator, so
   * `onFinish` is not reached, even when the stored day is the appointment
   * day itself.
   */
  lemma LoadedDateBlocksSave(base: map<string, Value>, d: DonationDetail, appointmentDay: int)
    requires d.donDate.Some?
    ensures !FormAccepts(Submitted(base + DetailFields(d)), Some(appointmentDay))
  {
  }

  /**
   * The evidently intended form filling: the stored date enters the field as
   * a day the validator can compare, as a picked one would.
   */
  function CorrectedDetailFields(d: DonationDetail): (r: map<string, Value>)
    ensures r.Keys == DETAIL_KEYS
    ensures r[DON_DATE] == (if d.donDate.Some? then Day(d.donDate.value) else Null)
    ensures forall k :: k in r && k != DON_DATE ==> r[k] == DetailFields(d)[k]
  {
    DetailFields(d)[DON_DATE := if d.donDate.Some? then Day(d.donDate.value) else Null]
  }

  /**
   * With the corrected filling, a loaded detail that has a date passes
   * validation exactly when its day is not before the appointment day, so an unchanged detail of a donation made on or after the
   * appointment can be saved again.
   */
  lemma CorrectedDetailSaves(base: map<string, Value>, d: DonationDetail, appointmentDay: int)
    requires d.donDate.Some?
    ensures FormAccepts(Submitted(base + CorrectedDetailFields(d)), Some(appointmentDay))
            <==> d.donDate.value >= appointmentDay
  {
  }

  // ---------------------------------------------------------------- submit

  /** `{...values, appointmentId, staffId, memberId}`: the three keys are written over the submitted values. */
  function Payload(values: map<string, Value>, selected: Appointment, staffId: int): (p: map<string, Value>)
    ensures p.Keys == values.Keys + PAYLOAD_KEYS
    ensures p["appointmentId"] == Num(selected.id)
    ensures p["staffId"] == Num(staffId)
    ensures p["memberId"] == Num(selected.userId)
    ensures forall k :: k in values && k !in PAYLOAD_KEYS ==> p[k] == values[k]
  {
    values["appointmentId" := Num(selected.id)]["staffId" := Num(staffId)]["memberId" := Num(selected.userId)]
  }

  /** An update of the selected appointment's detail when it is FULFILLED, a create otherwise. */
  function SubmitRequest(selected: Appointment, payload: map<string, Value>): (r: Request)
    ensures r.UpdateDetail? <==> selected.status == FULFILLED
    ensures r.CreateDetail? <==> selected.status != FULFILLED
    ensures r.UpdateDetail? ==> r.id == selected.id
    ensures (r.CreateDetail? || r.UpdateDetail?) && r.payload == payload
  {
    var isEdit := selected.status == FULFILLED;
    if isEdit then UpdateDetail(selected.id, payload) else CreateDetail(payload)
  }

  // ---------------------------------------------------------------- gating

  /** The row's donation button is enabled: its `disabled` condition is false. */
  function DonationEntryEnabled(a: Appointment): (e: bool)
    ensures e <==> a.status in {APPROVED, FULFILLED}
  {
    !(a.status != APPROVED && a.status != FULFILLED)
  }

  /** The survey modal shows approve and reject only for a PENDING selection, which cannot take donation entry. */
  function DecisionOffered(selected: Option<Appointment>): (d: bool)
    ensures d ==> selected.Some? && !DonationEntryEnabled(selected.value)
  {
    selected.Some? && selected.value.status == PENDING
  }

  /** The donation modal shows the edit toggle only for a FULFILLED selection, which can take donation entry. */
  function EditToggleOffered(selected: Option<Appointment>): (t: bool)
    ensures t ==> selected.Some? && DonationEntryEnabled(selected.value)
  {
    selected.Some? && selected.value.status == FULFILLED
  }

  /** The donation inputs are read-only for a FULFILLED appointment until edit mode is on. */
  function IsReadOnly(selected: Option<Appointment>, editMode: bool): (ro: bool)
    ensures ro <==> EditToggleOffered(selected) && !editMode
  {
    selected.Some? && selected.value.status == FULFILLED && !editMode
  }

  /** The Save button's `disabled` condition: it is disabled exactly while the inputs are read-only. */
  function SaveDisabled(selected: Option<Appointment>, editMode: bool): (sd: bool)
    ensures sd <==> IsReadOnly(selected, editMode)
  {
    selected.Some? && selected.value.status == FULFILLED && !editMode
  }

  // ------------------------------------------------------------ view state

  class View {
    var selected: Option<Appointment>
    var surveyVisible: bool
    var donationVisible: bool
    var editMode: bool
    var fields: map<string, Value>
    var searchTerm: string
    var sortKey: string

    /**
     * An open modal always has a selection behind it, and the donation modal's
     * selection can take donation entry; each modal's mask keeps the other
     * closed; the date field holds a day, a loaded date or nothing.
     */
    ghost predicate Valid()
      reads this
    {
      && (surveyVisible ==> selected.Some?)
      && (donationVisible ==> selected.Some? && DonationEntryEnabled(selected.value))
      && !(surveyVisible && donationVisible)
      && DateFieldWellFormed(fields)
    }

    /** The initial `useState` values and an empty form. */
    constructor ()
      ensures Valid()
      ensures selected == None && !surveyVisible && !donationVisible && !editMode
      ensures fields == map[] && searchTerm == "" && sortKey == BY_STATUS
    {
      selected := None;
      surveyVisible := false;
      donationVisible := false;
      editMode := false;
      fields := map[];
      searchTerm := "";
      sortKey := BY_STATUS;
    }

    /**
     * The rows the table shows for the store's appointment list under the
     * current search term and sort key: the matching appointments, each as
     * often as in the list, ordered by the comparator.
     */
    function Rows(appointments: Option<seq<Appointment>>): (rows: seq<Appointment>)
      reads this
      ensures multiset(rows) == multiset(Filter(appointments.GetOr([]), searchTerm))
      ensures Sorted(sortKey, rows)
    {
      SortPermutes(sortKey, Filter(appointments.GetOr([]), searchTerm));
      SortSorts(sortKey, Filter(appointments.GetOr([]), searchTerm));
      Derive(appointments, searchTerm, sortKey)
    }

    /** Typing in the search box. */
    method SetSearchTerm(term: string)
      modifies this`searchTerm
      ensures searchTerm == term
    {
      searchTerm := term;
    }

    /** Choosing a sort key. */
    method SetSortKey(key: string)
      modifies this`sortKey
      ensures sortKey == key
    {
      sortKey := key;
    }

    /** "Xem phiếu": select the row and open the survey modal; the open donation modal's mask keeps the table out of reach. */
    method ViewForm(record: Appointment)
      requires Valid() && !donationVisible
      modifies this`selected, this`surveyVisible
      ensures Valid()
      ensures selected == Some(record) && surveyVisible
    {
      selected := Some(record);
      surveyVisible := true;
    }

    /** The survey modal's close control. */
    method CloseSurvey()
      requires Valid()
      modifies this`surveyVisible
      ensures Valid() && !surveyVisible
    {
      surveyVisible := false;
    }

    /** Request a status change; only a success closes the survey modal. */
    method StatusUpdate(id: nat, newStatus: string, outcome: Outcome) returns (sent: Request)
      requires Valid()
      modifies this`surveyVisible
      ensures Valid()
      ensures sent == UpdateStatus(id, newStatus)
      ensures surveyVisible == (old(surveyVisible) && outcome.Failed?)
    {
      sent := UpdateStatus(id, newStatus);
      if outcome.Succeeded? {
        surveyVisible := false;
      }
    }

    /**
     * The survey modal's approve or reject button, present only while that
     * modal is open: the status change is requested for the selection only
     * when the confirmation is accepted.
     */
    method Decide(target: string, confirmed: bool, outcome: Outcome) returns (sent: Option<Request>)
      requires Valid() && surveyVisible && DecisionOffered(selected)
      requires target == APPROVED || target == REJECTED
      modifies this`surveyVisible
      ensures Valid()
      ensures sent == if confirmed then Some(UpdateStatus(selected.value.id, target)) else None
      ensures surveyVisible == (old(surveyVisible) && !(confirmed && outcome.Succeeded?))
    {
      if confirmed {
        var r := StatusUpdate(selected.value.id, target, outcome);
        sent := Some(r);
      } else {
        sent := None;
      }
    }

    /**
     * Open the donation modal for a row: select it, show the modal, request
     * the row's donation detail, fill the form from a found detail or clear
     * it (a failed lookup counts as none), and switch edit mode off.
     * `lookup` is how the requested fetch settled. The row's button is
     * reachable only while the survey modal's mask is away.
     */
    method OpenDonationModal(record: Appointment, lookup: Lookup) returns (sent: Request)
      requires Valid() && !surveyVisible && DonationEntryEnabled(record)
      modifies this`selected, this`donationVisible, this`fields, this`editMode
      ensures Valid()
      ensures sent == FetchDetail(record.id)
      ensures selected == Some(record) && donationVisible && !editMode
      ensures fields == if lookup.Found? then old(fields) + DetailFields(lookup.detail) else map[]
      ensures IsReadOnly(selected, editMode) <==> record.status == FULFILLED
    {
      selected := Some(record);
      donationVisible := true;
      sent := FetchDetail(record.id);
      match lookup {
        case Found(detail) =>
          fields := fields + DetailFields(detail);
        case NotFound =>
          fields := map[];
        case LookupFailed =>
          fields := map[];
      }
      editMode := false;
    }

    /** The user picks a value in one of the form's inputs; read-only inputs are disabled. */
    method EnterField(name: string, v: Value)
      requires Valid() && donationVisible
      requires name in FORM_ITEMS && !IsReadOnly(selected, editMode)
      requires Choosable(name, v, SelectedDate(selected))
      modifies this`fields
      ensures Valid()
      ensures fields == old(fields)[name := v]
      ensures name == DON_DATE ==> DateRuleAccepts(v, SelectedDate(selected))
    {
      if name == DON_DATE && v.Day? {
        DisabledIffRejected(v.day, SelectedDate(selected));
      }
      fields := fields[name := v];
    }

    /**
     * The form's `onFinish`, reached only from the open donation modal: send
     * an update (selection FULFILLED) or a create with the payload; on success also ask for status FULFILLED, close the
     * modal, clear the form and leave edit mode. A failure changes nothing.
     */
    method SubmitDonation(values: map<string, Value>, staffId: int, outcome: Outcome) returns (sent: seq<Request>)
      requires Valid() && donationVisible
      modifies this`donationVisible, this`fields, this`editMode
      ensures Valid()
      ensures DonationEntryEnabled(selected.value)
      ensures |sent| >= 1 && sent[0] == SubmitRequest(selected.value, Payload(values, selected.value, staffId))
      ensures sent[1..] == if outcome.Succeeded? then [UpdateStatus(selected.value.id, FULFILLED)] else []
      ensures outcome.Succeeded? ==> !donationVisible && fields == map[] && !editMode
      ensures outcome.Failed? ==>
                donationVisible == old(donationVisible) && fields == old(fields) && editMode == old(editMode)
    {
      var record := selected.value;
      var payload := Payload(values, record, staffId);
      var request := SubmitRequest(record, payload);
      if outcome.Succeeded? {
        sent := [request, UpdateStatus(record.id, FULFILLED)];
        donationVisible := false;
        fields := map[];
        editMode := false;
      } else {
        sent := [request];
      }
    }

    /**
     * "Lưu": validate the form; a form that fails its rules sends nothing and
     * changes nothing, one that passes goes to `SubmitDonation`, so whatever
     * is sent for an appointment with a date carries a picked donation day no
     * earlier than it.
     */
    method Save(staffId: int, outcome: Outcome) returns (sent: seq<Request>)
      requires Valid() && donationVisible && !SaveDisabled(selected, editMode)
      modifies this`donationVisible, this`fields, this`editMode
      ensures Valid()
      ensures sent == [] <==> !FormAccepts(Submitted(old(fields)), SelectedDate(selected))
      ensures sent == [] ==>
                donationVisible == old(donationVisible) && fields == old(fields) && editMode == old(editMode)
      ensures sent != [] ==>
                && sent[0] == SubmitRequest(selected.value, Payload(Submitted(old(fields)), selected.value, staffId))
                && (selected.value.date.Some? ==>
                      sent[0].payload[DON_DATE].Day? && sent[0].payload[DON_DATE].day >= selected.value.date.value)
                && sent[1..] == (if outcome.Succeeded? then [UpdateStatus(selected.value.id, FULFILLED)] else [])
                && DonationEntryEnabled(selected.value)
                && (outcome.Succeeded? ==> !donationVisible && fields == map[] && !editMode)
                && (outcome.Failed? ==>
                      donationVisible == old(donationVisible) && fields == old(fields) && editMode == old(editMode))
    {
      var values := Submitted(fields);
      if FormAccepts(values, SelectedDate(selected)) {
        sent := SubmitDonation(values, staffId, outcome);
      } else {
        sent := [];
      }
    }

    /** The modal's X: hide it, clear the form and leave edit mode. */
    method CancelDonationModal()
      requires Valid()
      modifies this`donationVisible, this`fields, this`editMode
      ensures Valid()
      ensures !donationVisible && fields == map[] && !editMode
    {
      donationVisible := false;
      fields := map[];
      editMode := false;
    }

    /** The footer's "Đóng": hide the modal and nothing else. */
    method CloseDonationModal()
      requires Valid()
      modifies this`donationVisible
      ensures Valid()
      ensures !donationVisible
    {
      donationVisible := false;
    }

    /** The edit toggle: flip edit mode, and with it whether the inputs are read-only. */
    method ToggleEditMode()
      requires Valid() && donationVisible && EditToggleOffered(selected)
      modifies this`editMode
      ensures Valid()
      ensures editMode == !old(editMode)
      ensures IsReadOnly(selected, editMode) == !old(IsReadOnly(selected, editMode))
    {
      editMode := !editMode;
    }
  }

  // -------------------------------------------------------- walk-throughs

  /** An APPROVED appointment without a detail opens on an empty, editable form after requesting its detail. */
  method OpenApprovedWithoutDetail()
  {
    var v := new View();
    var a := Appointment(12, Some(19853), APPROVED, 7);
    assert DonationEntryEnabled(a);
    var sent := v.OpenDonationModal(a, NotFound);
    assert sent == FetchDetail(12);
    assert v.fields == map[] && !IsReadOnly(v.selected, v.editMode);
  }

  /**
   * A FULFILLED appointment with a detail opens pre-filled and read-only
   * until edit mode is switched on; saving the unchanged detail then sends
   * nothing, because the loaded date fails the date rule.
   */
  method OpenFulfilledWithDetail()
  {
    var v := new View();
    var a := Appointment(13, Some(19853), FULFILLED, 7);
    var d := DonationDetail(40, Some(19853), "Hanoi", 1, 350, 7, "");
    var fetch := v.OpenDonationModal(a, Found(d));
    assert v.fields[DON_AMOUNT] == Num(350);
    assert IsReadOnly(v.selected, v.editMode) && SaveDisabled(v.selected, v.editMode);
    v.ToggleEditMode();
    assert !IsReadOnly(v.selected, v.editMode) && !SaveDisabled(v.selected, v.editMode);
    var sent := v.Save(3, Succeeded);
    assert Submitted(v.fields)[DON_DATE] == Loaded(19853);
    assert sent == [] && v.donationVisible;
  }

  /** Approving a PENDING appointment from its survey: the request goes out and the modal closes. */
  method ApprovePending()
  {
    var v := new View();
    var a := Appointment(11, Some(19853), PENDING, 7);
    v.ViewForm(a);
    var sent := v.Decide(APPROVED, true, Succeeded);
    assert sent == Some(UpdateStatus(11, APPROVED)) && !v.surveyVisible;
  }

  /** Saving a valid form for an APPROVED appointment: create, then FULFILLED, then the modal closes on a clear form. */
  method CreateThenFulfil()
  {
    var v := new View();
    var a := Appointment(12, Some(19853), APPROVED, 7);
    var fetch := v.OpenDonationModal(a, LookupFailed);
    v.EnterField(DON_AMOUNT, Num(350));
    v.EnterField(DON_DATE, Day(19853));
    v.EnterField(BLOOD_TYPE, Num(4));
    assert FormAccepts(Submitted(v.fields), SelectedDate(v.selected));
    var sent := v.Save(3, Succeeded);
    assert sent[0].CreateDetail? && sent[1..] == [UpdateStatus(12, FULFILLED)];
    assert !v.donationVisible && v.fields == map[];
  }

  /** A failed create leaves the modal open with what was entered. */
  method FailedCreateKeepsForm()
  {
    var v := new View();
    var a := Appointment(12, Some(19853), APPROVED, 7);
    var fetch := v.OpenDonationModal(a, NotFound);
    v.EnterField(DON_AMOUNT, Num(200));
    v.EnterField(DON_DATE, Day(19854));
    v.EnterField(BLOOD_TYPE, Num(2));
    assert FormAccepts(Submitted(v.fields), SelectedDate(v.selected));
    var entered := v.fields;
    var sent := v.Save(3, Failed);
    assert |sent| == 1 && v.donationVisible && v.fields == entered;
  }

  /** An appointment without a date: the picker disables no day, and any picked day passes the rule. */
  method UndatedAppointmentTakesAnyDay()
  {
    var v := new View();
    var a := Appointment(14, None, APPROVED, 7);
    var fetch := v.OpenDonationModal(a, NotFound);
    v.EnterField(DON_AMOUNT, Num(500));
    v.EnterField(DON_DATE, Day(0));
    v.EnterField(BLOOD_TYPE, Num(3));
    assert FormAccepts(Submitted(v.fields), SelectedDate(v.selected));
    var entered := v.fields;
    var sent := v.Save(3, Failed);
    assert sent[0] == CreateDetail(Payload(Submitted(entered), a, 3)) && sent[1..] == [];
    assert sent == [CreateDetail(Payload(Submitted(entered), a, 3))];
  }

  /** An appointment on day 19853 (2024-05-10): the day before is rejected, that day and the next pass. */
  method AppointmentDayBoundary()
  {
    assert !ValidatorAccepts(Some(19852), Some(19853)) && DisabledDate(Some(19852), Some(19853));
    assert ValidatorAccepts(Some(19853), Some(19853)) && ValidatorAccepts(Some(19854), Some(19853));
  }
}
