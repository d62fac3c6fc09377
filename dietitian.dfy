/** The dietitian dashboard's logic (DietitianDashboard.tsx): the random
    meal plan with its random draws taken as inputs, the greeting, the
    three modal forms that are cleared after a successful request, and the
    avatar initials. */
module Dietitian {
  import opened Common

  // ---------------------------------------------------------------------
  // generateRandomDietPlan

  const Breakfasts: seq<string> := ["Oatmeal with berries", "Quinoa porridge", "Idli with sambar", "Poha with vegetables"]
  const Lunches: seq<string> := ["Grilled chicken with quinoa", "Dal with brown rice", "Vegetable curry with roti", "Fish with steamed vegetables"]
  const Dinners: seq<string> := ["Vegetable soup with salad", "Khichdi with ghee", "Grilled tofu with vegetables", "Light curry with chapati"]
  const Snacks: seq<string> := ["Mixed nuts", "Fresh fruits", "Green tea", "Yogurt with herbs"]

  /** The diet-plan modal's fields. */
  datatype PlanForm = PlanForm(patientId: string, patientName: string, goal: string, duration: string, restrictions: string)

  const EmptyPlanForm := PlanForm("", "", "", "", "")

  datatype RandomPlan = RandomPlan(breakfast: string, lunch: string, dinner: string, snacks: string,
                                   instructions: string, calories: int)

  /** The draws of one plan: `Math.floor(Math.random() * n)` for each list
      (0..3) and for the calorie offset (0..499). */
  datatype Draws = Draws(breakfast: nat, lunch: nat, dinner: nat, snacks: nat, calorieOffset: nat)

  predicate InRange(d: Draws) {
    d.breakfast < 4 && d.lunch < 4 && d.dinner < 4 && d.snacks < 4 && d.calorieOffset < 500
  }

  function Instructions(data: PlanForm): string {
    "Follow this " + data.duration + " plan focusing on " + data.goal + ". Avoid "
      + (if data.restrictions == "" then "processed foods" else data.restrictions) + "."
  }

  /** Every meal comes from its list, the calories lie in 1500..1999, and the
      instructions name the restrictions, or processed foods when none. */
  function GenerateRandomDietPlan(data: PlanForm, draws: Draws): (p: RandomPlan)
    requires InRange(draws)
    ensures p.breakfast in Breakfasts && p.lunch in Lunches && p.dinner in Dinners && p.snacks in Snacks
    ensures 1500 <= p.calories <= 1999
    ensures p.instructions == Instructions(data)
  {
    RandomPlan(Breakfasts[draws.breakfast], Lunches[draws.lunch], Dinners[draws.dinner], Snacks[draws.snacks],
               Instructions(data), draws.calorieOffset + 1500)
  }

  /** Every combination of listed meals and every calorie figure in range is
      produced by some draws. */
  lemma EveryPlanReachable(data: PlanForm, b: string, l: string, d: string, s: string, calories: int)
    requires b in Breakfasts && l in Lunches && d in Dinners && s in Snacks && 1500 <= calories <= 1999
    ensures exists draws :: InRange(draws) && GenerateRandomDietPlan(data, draws) == RandomPlan(b, l, d, s, Instructions(data), calories)
  {
    var bi :| 0 <= bi < 4 && Breakfasts[bi] == b;
    var li :| 0 <= li < 4 && Lunches[li] == l;
    var di :| 0 <= di < 4 && Dinners[di] == d;
    var si :| 0 <= si < 4 && Snacks[si] == s;
    var draws := Draws(bi, li, di, si, calories - 1500);
    assert GenerateRandomDietPlan(data, draws) == RandomPlan(b, l, d, s, Instructions(data), calories);
  }

  /** `p` occurs somewhere in `s`. */
  ghost predicate Contains(s: string, p: string) {
    exists a: string, b: string :: s == a + p + b
  }

  /** The instructions open with "Follow this ", mention the duration and
      the goal, and end by naming what to avoid: the restrictions, or
      processed foods when the restrictions are empty. */
  lemma InstructionsMention(data: PlanForm)
    ensures var avoid := if data.restrictions == "" then "processed foods" else data.restrictions;
      var s := Instructions(data);
      && HasPrefix(s, "Follow this ")
      && |avoid| + 1 <= |s| && s[|s| - |avoid| - 1..] == avoid + "."
      && Contains(s, data.duration) && Contains(s, data.goal) && Contains(s, avoid)
  {
    var avoid := if data.restrictions == "" then "processed foods" else data.restrictions;
    TemplateParts("Follow this ", data.duration, " plan focusing on ", data.goal, ". Avoid ", avoid, ".");
  }

  /** The parts of a filled-in template: it starts with its first piece,
      contains every filled-in value and ends with the last value and the
      closing piece. */
  lemma TemplateParts(p0: string, x: string, p1: string, y: string, p2: string, z: string, p3: string)
    ensures var s := p0 + x + p1 + y + p2 + z + p3;
      && HasPrefix(s, p0)
      && |z| + |p3| <= |s| && s[|s| - |z| - |p3|..] == z + p3
      && Contains(s, x) && Contains(s, y) && Contains(s, z)
  {
    var s := p0 + x + p1 + y + p2 + z + p3;
    assert s == p0 + (x + p1 + y + p2 + z + p3);
    assert s[..|p0|] == p0;
    assert s == (p0 + x + p1 + y + p2) + (z + p3);
    assert s == p0 + x + (p1 + y + p2 + z + p3);
    assert s == (p0 + x + p1) + y + (p2 + z + p3);
    assert s == (p0 + x + p1 + y + p2) + z + p3;
  }

  // ---------------------------------------------------------------------
  // getWelcomeMessage

  /** `user?.user_metadata?.name || 'Doctor'`, after the time-of-day salutation. */
  function DietitianGreeting(hour: int, name: Option<string>): (g: string)
    ensures name.Some? && name.value != "" ==> g == Salutation(hour) + ", Dr. " + name.value + "!"
    ensures name.None? || name.value == "" ==> g == Salutation(hour) + ", Dr. Doctor!"
  {
    Greeting(hour, "Dr. ", name, "Doctor")
  }

  // ---------------------------------------------------------------------
  // The modal forms

  datatype PatientForm = PatientForm(name: string, email: string, phone: string, age: string, gender: string)

  const EmptyPatientForm := PatientForm("", "", "", "", "")

  datatype AppointmentForm = AppointmentForm(patientId: string, patientName: string, date: string, time: string,
                                             appointmentType: string, notes: string)

  const EmptyAppointmentForm := AppointmentForm("", "", "", "", "", "")

  /** The body of the schedule request: the form plus the dietitian's id. */
  datatype ScheduleRequest = ScheduleRequest(form: AppointmentForm, dietitianId: string)

  /** The body of the create-plan request: the form, the generated plan and
      the dietitian's id. */
  datatype PlanRequest = PlanRequest(form: PlanForm, plan: RandomPlan, dietitianId: string)

  class DashboardForms {
    var newPatient: PatientForm
    var showAddPatient: bool
    var newAppointment: AppointmentForm
    var showScheduleAppointment: bool
    var dietPlanData: PlanForm
    var showCreateDietPlan: bool

    constructor ()
      ensures newPatient == EmptyPatientForm && newAppointment == EmptyAppointmentForm && dietPlanData == EmptyPlanForm
      ensures !showAddPatient && !showScheduleAppointment && !showCreateDietPlan
    {
      newPatient := EmptyPatientForm;
      newAppointment := EmptyAppointmentForm;
      dietPlanData := EmptyPlanForm;
      showAddPatient := false;
      showScheduleAppointment := false;
      showCreateDietPlan := false;
    }

    /** The add-patient dialog's open state: the dashboard's "Add Patient"
      buttons, the dialog's Cancel and its `onOpenChange`. The forms are kept. */
    method SetAddPatientOpen(open: bool)
      modifies this
      ensures showAddPatient == open
      ensures showScheduleAppointment == old(showScheduleAppointment) && showCreateDietPlan == old(showCreateDietPlan)
      ensures newPatient == old(newPatient) && newAppointment == old(newAppointment) && dietPlanData == old(dietPlanData)
    {
      showAddPatient := open;
    }

    /** The schedule dialog's open state, likewise. */
    method SetScheduleOpen(open: bool)
      modifies this
      ensures showScheduleAppointment == open
      ensures showAddPatient == old(showAddPatient) && showCreateDietPlan == old(showCreateDietPlan)
      ensures newPatient == old(newPatient) && newAppointment == old(newAppointment) && dietPlanData == old(dietPlanData)
    {
      showScheduleAppointment := open;
    }

    /** The diet-plan dialog's open state, likewise. */
    method SetCreatePlanOpen(open: bool)
      modifies this
      ensures showCreateDietPlan == open
      ensures showAddPatient == old(showAddPatient) && showScheduleAppointment == old(showScheduleAppointment)
      ensures newPatient == old(newPatient) && newAppointment == old(newAppointment) && dietPlanData == old(dietPlanData)
    {
      showCreateDietPlan := open;
    }

    /** An input of the open add-patient dialog, `setNewPatient({...newPatient, <field>: value})`;
      `form` is the form with that one field replaced. */
    method EditPatient(form: PatientForm)
      requires showAddPatient
      modifies this
      ensures newPatient == form
      ensures showAddPatient && showScheduleAppointment == old(showScheduleAppointment) && showCreateDietPlan == old(showCreateDietPlan)
      ensures newAppointment == old(newAppointment) && dietPlanData == old(dietPlanData)
    {
      newPatient := form;
    }

    /** An input of the open schedule dialog, likewise. */
    method EditAppointment(form: AppointmentForm)
      requires showScheduleAppointment
      modifies this
      ensures newAppointment == form
      ensures showScheduleAppointment && showAddPatient == old(showAddPatient) && showCreateDietPlan == old(showCreateDietPlan)
      ensures newPatient == old(newPatient) && dietPlanData == old(dietPlanData)
    {
      newAppointment := form;
    }

    /** An input of the open diet-plan dialog, likewise. */
    method EditPlan(form: PlanForm)
      requires showCreateDietPlan
      modifies this
      ensures dietPlanData == form
      ensures showCreateDietPlan && showAddPatient == old(showAddPatient) && showScheduleAppointment == old(showScheduleAppointment)
      ensures newPatient == old(newPatient) && newAppointment == old(newAppointment)
    {
      dietPlanData := form;
    }

    /** handleAddPatient, from the open dialog's button: sends the form; on
      success closes and clears it. */
    method AddPatient(serverOk: bool) returns (request: PatientForm)
      requires showAddPatient
      modifies this
      ensures request == old(newPatient)
      ensures serverOk ==> newPatient == EmptyPatientForm && !showAddPatient
      ensures !serverOk ==> newPatient == old(newPatient) && showAddPatient == old(showAddPatient)
      ensures newAppointment == old(newAppointment) && showScheduleAppointment == old(showScheduleAppointment)
      ensures dietPlanData == old(dietPlanData) && showCreateDietPlan == old(showCreateDietPlan)
    {
      request := newPatient;
      if serverOk {
        showAddPatient := false;
        newPatient := EmptyPatientForm;
      }
    }

    /** handleScheduleAppointment: sends the form with the dietitian's id; on
      success closes and clears it. Its button is in the open dialog. */
    method ScheduleAppointment(dietitianId: string, serverOk: bool) returns (request: ScheduleRequest)
      requires showScheduleAppointment
      modifies this
      ensures request == ScheduleRequest(old(newAppointment), dietitianId)
      ensures serverOk ==> newAppointment == EmptyAppointmentForm && !showScheduleAppointment
      ensures !serverOk ==> newAppointment == old(newAppointment) && showScheduleAppointment == old(showScheduleAppointment)
      ensures newPatient == old(newPatient) && showAddPatient == old(showAddPatient)
      ensures dietPlanData == old(dietPlanData) && showCreateDietPlan == old(showCreateDietPlan)
    {
      request := ScheduleRequest(newAppointment, dietitianId);
      if serverOk {
        showScheduleAppointment := false;
        newAppointment := EmptyAppointmentForm;
      }
    }

    /** handleCreateDietPlan: generates a plan from the form, sends both; on
      success closes and clears the form. Its button is in the open dialog. */
    method CreateDietPlan(dietitianId: string, draws: Draws, serverOk: bool) returns (request: PlanRequest)
      requires showCreateDietPlan
      requires InRange(draws)
      modifies this
      ensures request == PlanRequest(old(dietPlanData), GenerateRandomDietPlan(old(dietPlanData), draws), dietitianId)
      ensures serverOk ==> dietPlanData == EmptyPlanForm && !showCreateDietPlan
      ensures !serverOk ==> dietPlanData == old(dietPlanData) && showCreateDietPlan == old(showCreateDietPlan)
      ensures newPatient == old(newPatient) && showAddPatient == old(showAddPatient)
      ensures newAppointment == old(newAppointment) && showScheduleAppointment == old(showScheduleAppointment)
    {
      var generatedPlan := GenerateRandomDietPlan(dietPlanData, draws);
      request := PlanRequest(dietPlanData, generatedPlan, dietitianId);
      if serverOk {
        showCreateDietPlan := false;
        dietPlanData := EmptyPlanForm;
      }
    }
  }

  // ---------------------------------------------------------------------
  // Initials: `name.split(' ').map(n => n[0]).join('')`

  /** `s.split(' ')`: the pieces between single spaces, "" included. */
  function Split(s: string): (parts: seq<string>)
    ensures |parts| >= 1
    ensures forall i :: 0 <= i < |parts| ==> ' ' !in parts[i]
  {
    if s == [] then [""]
    else
      var init := Split(s[..|s| - 1]);
      var c := s[|s| - 1];
      if c == ' ' then init + [""]
      else
        var last := init[|init| - 1] + [c];
        assert ' ' !in last;
        init[..|init| - 1] + [last]
  }

  /** `parts.join(' ')`. */
  function Join(parts: seq<string>): string
    requires |parts| >= 1
  {
    if |parts| == 1 then parts[0] else Join(parts[..|parts| - 1]) + " " + parts[|parts| - 1]
  }

  lemma JoinAppend(parts: seq<string>, x: string)
    requires |parts| >= 1
    ensures Join(parts + [x]) == Join(parts) + " " + x
  {
    assert (parts + [x])[..|parts|] == parts;
  }

  /** Splitting on spaces and joining with spaces gives the name back. */
  lemma {:induction false} JoinSplit(s: string)
    ensures Join(Split(s)) == s
  {
    if s != [] {
      var t := s[..|s| - 1];
      var c := s[|s| - 1];
      assert s == t + [c];
      var init := Split(t);
      JoinSplit(t);
      if c == ' ' {
        JoinAppend(init, "");
      } else {
        var front := init[..|init| - 1];
        var l := init[|init| - 1];
        assert init == front + [l];
        if front == [] {
          assert Split(s) == [l + [c]];
        } else {
          JoinAppend(front, l);
          JoinAppend(front, l + [c]);
        }
      }
    }
  }

  /** The last piece is empty exactly when the string is empty or ends in a space. */
  lemma {:induction false} LastPieceEmpty(s: string)
    ensures var parts := Split(s); parts[|parts| - 1] == "" <==> s == [] || s[|s| - 1] == ' '
  {
  }

  /** `n[0]` joined: a piece contributes its first character, and an empty
      piece (whose `n[0]` is undefined) contributes nothing. */
  function FirstChars(parts: seq<string>): string {
    if parts == [] then ""
    else
      var p := parts[|parts| - 1];
      FirstChars(parts[..|parts| - 1]) + (if p == "" then "" else [p[0]])
  }

  /** An independent reading: the characters that start a word, that is the
      non-space characters at the start or right after a space. */
  function WordStarts(s: string): string {
    if s == [] then ""
    else
      var n := |s|;
      WordStarts(s[..n - 1]) + (if s[n - 1] != ' ' && (n == 1 || s[n - 2] == ' ') then [s[n - 1]] else "")
  }

  function Initials(name: string): string {
    FirstChars(Split(name))
  }

  lemma {:induction false} InitialsAreWordStarts(name: string)
    ensures Initials(name) == WordStarts(name)
  {
    if name != [] {
      var t := name[..|name| - 1];
      var c := name[|name| - 1];
      assert name == t + [c];
      InitialsAreWordStarts(t);
      if c != ' ' {
        WordCharStep(t, c);
      } else {
        SpaceStep(t);
      }
    }
  }

  lemma WordCharStep(t: string, c: char)
    requires c != ' ' && Initials(t) == WordStarts(t)
    ensures Initials(t + [c]) == WordStarts(t + [c])
  {
    var name := t + [c];
    assert name[..|name| - 1] == t;
    var init := Split(t);
    LastPieceEmpty(t);
    ExtendLastPiece(init, c);
    if |t| > 0 {
      assert name[|name| - 2] == t[|t| - 1];
    }
  }

  lemma SpaceStep(t: string)
    requires Initials(t) == WordStarts(t)
    ensures Initials(t + [' ']) == WordStarts(t + [' '])
  {
    var name := t + [' '];
    assert name[..|name| - 1] == t;
    var init := Split(t);
    assert (init + [""])[..|init|] == init;
  }

  /** Appending a character to the last piece adds that character to the
      initials exactly when the piece was empty. */
  lemma ExtendLastPiece(parts: seq<string>, c: char)
    requires |parts| >= 1
    ensures var l := parts[|parts| - 1];
      FirstChars(parts[..|parts| - 1] + [l + [c]]) == FirstChars(parts) + (if l == "" then [c] else "")
  {
    var front := parts[..|parts| - 1];
    var l := parts[|parts| - 1];
    var extended := front + [l + [c]];
    assert extended[..|extended| - 1] == front && extended[|extended| - 1] == l + [c];
    assert FirstChars(extended) == FirstChars(front) + [(l + [c])[0]];
    assert FirstChars(parts) == FirstChars(front) + (if l == "" then "" else [l[0]]);
    if l != "" {
      assert (l + [c])[0] == l[0];
    }
  }

  /** The patients list: `patient.name?.split(' ')...join('') || 'P'`. A
      missing name and a name without any word both show "P". */
  function PatientInitials(name: Option<string>): (s: string)
    ensures s != ""
    ensures s == "P" <==> name.None? || WordStarts(name.value) == "" || WordStarts(name.value) == "P"
    ensures name.Some? && WordStarts(name.value) != "" ==> s == WordStarts(name.value)
  {
    if name.None? then "P"
    else
      InitialsAreWordStarts(name.value);
      var i := Initials(name.value);
      if i == "" then "P" else i
  }
}
