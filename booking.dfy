/** The appointment-booking wizard (BookAppointment.tsx): step 1 picks a
    dietitian, step 2 a date, a time slot and a consultation type, step 3
    confirms and sends the request, step 4 shows the booking. Each control
    acts only on the step that renders it. */
module Booking {
  import opened Common
  import Store

  datatype Dietitian = Dietitian(id: string, name: string, specialization: string, experience: string,
                                 ratingTenths: nat, reviews: nat, languages: seq<string>, consultationFee: string)

  const Dietitians: seq<Dietitian> := [
    Dietitian("1", "Dr. Priya Sharma", "Ayurvedic Nutrition & Weight Management", "8 years", 49, 124,
              ["English", "Hindi", "Sanskrit"], "₹1,500"),
    Dietitian("2", "Dr. Rajesh Kumar", "Panchakarma & Detox Therapy", "12 years", 48, 89,
              ["English", "Hindi", "Tamil"], "₹2,000"),
    Dietitian("3", "Dr. Meera Patel", "Women's Health & Fertility", "6 years", 47, 67,
              ["English", "Hindi", "Gujarati"], "₹1,200")]

  const TimeSlots: seq<string> := [
    "9:00 AM", "9:30 AM", "10:00 AM", "10:30 AM", "11:00 AM", "11:30 AM",
    "2:00 PM", "2:30 PM", "3:00 PM", "3:30 PM", "4:00 PM", "4:30 PM",
    "5:00 PM", "5:30 PM", "6:00 PM"]

  /** `title` is the type's `label`. */
  datatype AppointmentType = AppointmentType(value: string, title: string, description: string, duration: string)

  const AppointmentTypes: seq<AppointmentType> := [
    AppointmentType("initial", "Initial Consultation", "Comprehensive assessment and Prakriti analysis", "60 minutes"),
    AppointmentType("followup", "Follow-up Consultation", "Review progress and adjust recommendations", "30 minutes"),
    AppointmentType("diet-review", "Diet Plan Review", "Discuss and modify your current diet plan", "45 minutes"),
    AppointmentType("lifestyle", "Lifestyle Counseling", "Focus on lifestyle modifications and wellness practices", "45 minutes")]

  /** A calendar day: its time value and its `getDay()` (0 is Sunday). */
  datatype Date = Date(time: int, weekday: nat)

  /** The calendar's `disabled`: days before now and Sundays. */
  predicate DateDisabled(d: Date, now: int) {
    d.time < now || d.weekday == 0
  }

  function IdOf(d: Dietitian): string {
    d.id
  }

  function ValueOf(t: AppointmentType): string {
    t.value
  }

  function DietitianIds(): seq<string> {
    Project(Dietitians, IdOf)
  }

  function TypeValues(): seq<string> {
    Project(AppointmentTypes, ValueOf)
  }

  /** getSelectedDietitiannInfo: the listed dietitian with this id. */
  function DietitianInfo(id: string): (d: Option<Dietitian>)
    ensures d.Some? ==> d.value in Dietitians && d.value.id == id
    ensures d.None? <==> id !in DietitianIds()
  {
    FindBy(Dietitians, IdOf, id)
  }

  /** getAppointmentTypeInfo: the listed type with this value. */
  function TypeInfo(value: string): (t: Option<AppointmentType>)
    ensures t.Some? ==> t.value in AppointmentTypes && t.value.value == value
    ensures t.None? <==> value !in TypeValues()
  {
    FindBy(AppointmentTypes, ValueOf, value)
  }

  /** The request body of handleBookAppointment. */
  datatype Request = Request(date: Date, time: string, appointmentType: string, dietitianId: string,
                             notes: string, status: string)

  /** What a press of Confirm does; `NotShown` is a press off step 3, where
      the button is not rendered. */
  datatype Outcome = NotShown | MissingFields | Booked(request: Request) | Failed(request: Request)

  const MissingFieldsMessage := "Please fill in all required fields"

  /** The request as the JSON fields the server receives. */
  function RequestFields(r: Request): (f: Store.Fields)
    ensures f.Keys == {"date", "time", "type", "dietitianId", "notes", "status"}
    ensures f["time"] == Store.Str(r.time) && f["type"] == Store.Str(r.appointmentType)
    ensures f["dietitianId"] == Store.Str(r.dietitianId) && f["status"] == Store.Str(r.status)
    ensures f["date"] == Store.Num(r.date.time) && f["notes"] == Store.Str(r.notes)
  {
    map["date" := Store.Num(r.date.time), "time" := Store.Str(r.time), "type" := Store.Str(r.appointmentType),
        "dietitianId" := Store.Str(r.dietitianId), "notes" := Store.Str(r.notes), "status" := Store.Str(r.status)]
  }

  /** The client asks for status 'pending'; the server stores 'scheduled'
      and keeps every other field of the request. */
  lemma PendingIsStoredAsScheduled(r: Request, appointmentId: string, userId: string, now: int)
    requires r.status == "pending"
    ensures var stored := Store.AppointmentRecord(appointmentId, userId, RequestFields(r), now);
      && stored["status"] == Store.Str("scheduled")
      && stored["dietitianId"] == Store.Str(r.dietitianId)
      && stored["time"] == Store.Str(r.time)
      && stored["type"] == Store.Str(r.appointmentType)
      && stored["patient_id"] == Store.Str(userId)
  {
  }

  class BookingWizard {
    var step: nat
    var selectedDate: Option<Date>
    var selectedTime: string
    var appointmentType: string
    var selectedDietitian: string
    var notes: string
    var loading: bool

    /** Selections come from the offered lists; getting past a step needs
      that step's selections. Between handlers no request is in flight, so
      `loading` is off. */
    ghost predicate Valid()
      reads this
    {
      && 1 <= step <= 4
      && (selectedDietitian == "" || selectedDietitian in DietitianIds())
      && (selectedTime == "" || selectedTime in TimeSlots)
      && (appointmentType == "" || appointmentType in TypeValues())
      && (step >= 2 ==> selectedDietitian != "")
      && (step >= 3 ==> selectedDate.Some? && selectedTime != "" && appointmentType != "")
      && !loading
    }

    constructor ()
      ensures Valid() && step == 1
      ensures selectedDate.None? && selectedTime == "" && appointmentType == "" && selectedDietitian == "" && notes == ""
    {
      step := 1;
      selectedDate := None;
      selectedTime := "";
      appointmentType := "";
      selectedDietitian := "";
      notes := "";
      loading := false;
    }

    /** Step 1: a dietitian card. */
    method ChooseDietitian(i: nat)
      requires Valid() && i < |Dietitians|
      modifies this
      ensures Valid()
      ensures step == old(step)
      ensures selectedDietitian == if old(step) == 1 then Dietitians[i].id else old(selectedDietitian)
      ensures selectedDate == old(selectedDate) && selectedTime == old(selectedTime)
      ensures appointmentType == old(appointmentType) && notes == old(notes)
    {
      if step == 1 {
        assert DietitianIds()[i] == Dietitians[i].id;
        selectedDietitian := Dietitians[i].id;
      }
    }

    /** Step 1's Continue, `disabled={!selectedDietitian}`. */
    method ContinueToSchedule()
      requires Valid()
      modifies this
      ensures Valid()
      ensures step == if old(step) == 1 && selectedDietitian != "" then 2 else old(step)
      ensures selectedDate == old(selectedDate) && selectedTime == old(selectedTime)
      ensures appointmentType == old(appointmentType) && selectedDietitian == old(selectedDietitian)
      ensures notes == old(notes)
    {
      if step == 1 && selectedDietitian != "" {
        step := 2;
      }
    }

    /** Step 2's calendar: a disabled day cannot be picked. */
    method PickDate(d: Date, now: int)
      requires Valid()
      modifies this
      ensures Valid()
      ensures step == old(step)
      ensures selectedDate == if old(step) == 2 && !DateDisabled(d, now) then Some(d) else old(selectedDate)
      ensures selectedTime == old(selectedTime) && appointmentType == old(appointmentType)
      ensures selectedDietitian == old(selectedDietitian) && notes == old(notes)
    {
      if step == 2 && !DateDisabled(d, now) {
        selectedDate := Some(d);
      }
    }

    /** Step 2's time slots, shown once a date is picked. */
    method PickTime(i: nat)
      requires Valid() && i < |TimeSlots|
      modifies this
      ensures Valid()
      ensures step == old(step)
      ensures selectedTime == if old(step) == 2 && old(selectedDate).Some? then TimeSlots[i] else old(selectedTime)
      ensures selectedDate == old(selectedDate) && appointmentType == old(appointmentType)
      ensures selectedDietitian == old(selectedDietitian) && notes == old(notes)
    {
      if step == 2 && selectedDate.Some? {
        selectedTime := TimeSlots[i];
      }
    }

    /** Step 2's consultation types. */
    method PickType(i: nat)
      requires Valid() && i < |AppointmentTypes|
      modifies this
      ensures Valid()
      ensures step == old(step)
      ensures appointmentType == if old(step) == 2 then AppointmentTypes[i].value else old(appointmentType)
      ensures selectedDate == old(selectedDate) && selectedTime == old(selectedTime)
      ensures selectedDietitian == old(selectedDietitian) && notes == old(notes)
    {
      if step == 2 {
        assert TypeValues()[i] == AppointmentTypes[i].value;
        appointmentType := AppointmentTypes[i].value;
      }
    }

    /** Step 2's notes textarea: `setNotes(e.target.value)`. */
    method EditNotes(text: string)
      requires Valid()
      modifies this
      ensures Valid()
      ensures step == old(step)
      ensures notes == if old(step) == 2 then text else old(notes)
      ensures selectedDate == old(selectedDate) && selectedTime == old(selectedTime)
      ensures appointmentType == old(appointmentType) && selectedDietitian == old(selectedDietitian)
    {
      if step == 2 {
        notes := text;
      }
    }

    /** Step 2's Back. */
    method BackToDietitian()
      requires Valid()
      modifies this
      ensures Valid()
      ensures step == if old(step) == 2 then 1 else old(step)
      ensures selectedDate == old(selectedDate) && selectedTime == old(selectedTime)
      ensures appointmentType == old(appointmentType) && selectedDietitian == old(selectedDietitian)
      ensures notes == old(notes)
    {
      if step == 2 {
        step := 1;
      }
    }

    /** Step 2's Continue, `disabled={!selectedDate || !selectedTime || !appointmentType}`. */
    method ContinueToConfirm()
      requires Valid()
      modifies this
      ensures Valid()
      ensures step == if old(step) == 2 && selectedDate.Some? && selectedTime != "" && appointmentType != "" then 3 else old(step)
      ensures selectedDate == old(selectedDate) && selectedTime == old(selectedTime)
      ensures appointmentType == old(appointmentType) && selectedDietitian == old(selectedDietitian)
      ensures notes == old(notes)
    {
      if step == 2 && selectedDate.Some? && selectedTime != "" && appointmentType != "" {
        step := 3;
      }
    }

    /** Step 3's Back. */
    method BackToSchedule()
      requires Valid()
      modifies this
      ensures Valid()
      ensures step == if old(step) == 3 then 2 else old(step)
      ensures selectedDate == old(selectedDate) && selectedTime == old(selectedTime)
      ensures appointmentType == old(appointmentType) && selectedDietitian == old(selectedDietitian)
      ensures notes == old(notes)
    {
      if step == 3 {
        step := 2;
      }
    }

    /** Step 3's Confirm, handleBookAppointment: off step 3 there is no
      button and nothing changes; with a field missing nothing is sent;
      otherwise the request asks for status 'pending', and when the server
      accepts it (`serverOk`) the wizard moves to the confirmation. The
      request runs with `loading` on, and it is off again on every exit. */
    method BookAppointment(serverOk: bool) returns (outcome: Outcome)
      requires Valid()
      modifies this
      ensures Valid()
      ensures outcome == NotShown <==> old(step) != 3
      ensures outcome == MissingFields <==>
        old(step) == 3 && (old(selectedDate).None? || old(selectedTime) == "" || old(appointmentType) == "" || old(selectedDietitian) == "")
      ensures outcome.Booked? || outcome.Failed? ==>
        outcome.request == Request(old(selectedDate).value, old(selectedTime), old(appointmentType),
                                   old(selectedDietitian), old(notes), "pending")
      ensures outcome.Booked? <==> outcome != NotShown && outcome != MissingFields && serverOk
      ensures step == if outcome.Booked? then 4 else old(step)
      ensures selectedDate == old(selectedDate) && selectedTime == old(selectedTime)
      ensures appointmentType == old(appointmentType) && selectedDietitian == old(selectedDietitian)
      ensures notes == old(notes) && !loading
    {
      if step != 3 {
        return NotShown;
      }
      if selectedDate.None? || selectedTime == "" || appointmentType == "" || selectedDietitian == "" {
        return MissingFields;
      }
      loading := true;
      var request := Request(selectedDate.value, selectedTime, appointmentType, selectedDietitian, notes, "pending");
      if serverOk {
        step := 4;
        outcome := Booked(request);
      } else {
        outcome := Failed(request);
      }
      loading := false;
    }

    /** Step 4's "Book Another Appointment": back to step 1 with the previous
      selections kept. */
    method BookAnother()
      requires Valid()
      modifies this
      ensures Valid()
      ensures step == if old(step) == 4 then 1 else old(step)
      ensures selectedDate == old(selectedDate) && selectedTime == old(selectedTime)
      ensures appointmentType == old(appointmentType) && selectedDietitian == old(selectedDietitian)
      ensures notes == old(notes)
    {
      if step == 4 {
        step := 1;
      }
    }

    /** On the confirmation step the lookups of the chosen dietitian and type
      both succeed. */
    lemma ConfirmationLookups()
      requires Valid() && step >= 3
      ensures DietitianInfo(selectedDietitian).Some? && TypeInfo(appointmentType).Some?
    {
    }

    /** On step 3 the missing-field guard of handleBookAppointment can no
      longer fire: the step guards already demanded every field. */
    lemma ConfirmStepHasAllFields()
      requires Valid() && step == 3
      ensures !(selectedDate.None? || selectedTime == "" || appointmentType == "" || selectedDietitian == "")
    {
    }
  }
}
