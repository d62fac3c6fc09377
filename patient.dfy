/** The patient dashboard's logic (PatientDashboard.tsx): the next upcoming
    appointment, the greeting, the dosha bars and the first three
    recommendations. */
module Patient {
  import opened Common

  /** An appointment as the dashboard reads it; a date that does not parse
      (or is missing) is None. */
  datatype Appointment = Appointment(id: string, date: Option<int>)

  /** `new Date(apt.date) > new Date()`: an unparsable date compares false. */
  predicate IsUpcoming(a: Appointment, now: int) {
    a.date.Some? && a.date.value > now
  }

  /** `appointments.filter(isUpcoming)`, in list order. */
  function Upcoming(appointments: seq<Appointment>, now: int): (r: seq<Appointment>)
    ensures forall a :: a in r <==> a in appointments && IsUpcoming(a, now)
  {
    if appointments == [] then []
    else
      var init := Upcoming(appointments[..|appointments| - 1], now);
      var last := appointments[|appointments| - 1];
      assert forall a :: a in appointments <==> a in appointments[..|appointments| - 1] || a == last;
      if IsUpcoming(last, now) then init + [last] else init
  }

  function DateKey(a: Appointment): int {
    if a.date.Some? then a.date.value else 0
  }

  /** getNextAppointment: the upcoming appointments sorted by date, first one. */
  function NextAppointment(appointments: seq<Appointment>, now: int): Option<Appointment> {
    var upcoming := SortAsc(Upcoming(appointments, now), DateKey);
    if upcoming == [] then None else Some(upcoming[0])
  }

  /** The next appointment is an upcoming one no later than any other
      upcoming one, and there is none exactly when nothing is upcoming. */
  lemma {:induction false} NextAppointmentSpec(appointments: seq<Appointment>, now: int)
    ensures NextAppointment(appointments, now).None? <==> forall a :: a in appointments ==> !IsUpcoming(a, now)
    ensures var next := NextAppointment(appointments, now);
      next.Some? ==> && next.value in appointments && IsUpcoming(next.value, now)
                     && forall a :: a in appointments && IsUpcoming(a, now) ==> next.value.date.value <= a.date.value
  {
    var up := Upcoming(appointments, now);
    var sorted := SortAsc(up, DateKey);
    forall a ensures a in sorted <==> a in up {
      SortAscMembers(up, DateKey, a);
    }
    if sorted != [] {
      assert sorted[0] in sorted;
      forall a | a in appointments && IsUpcoming(a, now)
        ensures sorted[0].date.value <= a.date.value
      {
        assert a in sorted;
        var k :| 0 <= k < |sorted| && sorted[k] == a;
        if k > 0 {
          assert DateKey(sorted[0]) <= DateKey(sorted[k]);
        }
      }
    } else {
      forall a | a in appointments
        ensures !IsUpcoming(a, now)
      {
        assert a !in sorted;
      }
    }
  }

  /** `user?.user_metadata?.name || 'there'`, after the time-of-day salutation. */
  function PatientGreeting(hour: int, name: Option<string>): (g: string)
    ensures name.Some? && name.value != "" ==> g == Salutation(hour) + ", " + name.value + "!"
    ensures name.None? || name.value == "" ==> g == Salutation(hour) + ", there!"
  {
    Greeting(hour, "", name, "there")
  }

  /** A dosha bar, `(scores?.<dosha> || 0) * 10`: a missing score draws 0,
      and a score in 0..10 fills 0..100. */
  function DoshaBar(score: Option<int>): (v: int)
    ensures score.None? ==> v == 0
    ensures score.Some? ==> v == 10 * score.value
    ensures score.Some? ==> (0 <= v <= 100 <==> 0 <= score.value <= 10)
  {
    if score.Some? && score.value != 0 then score.value * 10 else 0
  }

  /** `recommendations?.slice(0, 3)`: the first three, or all when fewer. */
  function TopRecommendations(recommendations: Option<seq<string>>): (r: seq<string>)
    ensures recommendations.None? ==> r == []
    ensures recommendations.Some? ==> |r| == if |recommendations.value| < 3 then |recommendations.value| else 3
    ensures recommendations.Some? ==> r == recommendations.value[..|r|]
  {
    if recommendations.None? then []
    else if |recommendations.value| < 3 then recommendations.value
    else recommendations.value[..3]
  }
}
