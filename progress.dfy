/** The progress-tracking page (ProgressTracking.tsx): the add-entry form
    with its required fields and defaults, the trend of one metric over the
    two newest entries, the chart rows and the latest entry. The page keeps
    the entries in a state array that the chart and latest-entry helpers
    sort in place. */
module Progress {
  import opened Common

  // ---------------------------------------------------------------------
  // The add-entry form

  /** The form's text fields; the level fields hold a select's value, one
      of "1".."10", or "" when nothing was picked. */
  datatype Form = Form(weight: string, energyLevel: string, sleepQuality: string,
                       stressLevel: string, digestiveHealth: string, notes: string)

  const EmptyForm := Form("", "", "", "", "", "")

  /** The request body. The weight is sent as typed (its parseFloat is not
      part of this model); the levels are parsed as decimal integers. */
  datatype Body = Body(weight: string, energyLevel: nat, sleepQuality: nat,
                       stressLevel: nat, digestiveHealth: nat, notes: string)

  /** `parseInt(value || '5')`. */
  function LevelOrFive(value: string): nat {
    ParseDigits(if value == "" then "5" else value)
  }

  /** A picked level is sent as itself and a blank one as 5. */
  lemma LevelDefaults(n: nat)
    ensures LevelOrFive(NatToString(n)) == n
    ensures LevelOrFive("") == 5
  {
    ParseNatToString(n);
    ParseNatToString(5);
  }

  const RequiredMessage := "Please fill in required fields (weight and energy level)"

  /** handleAddProgress up to the request: a blank weight or energy level
      stops it with a message; otherwise the body carries the parsed levels
      with the blank optional ones as 5. */
  function BuildBody(form: Form): (r: Result<Body>)
    ensures r.Err? <==> form.weight == "" || form.energyLevel == ""
    ensures r.Err? ==> r.message == RequiredMessage
    ensures r.Ok? ==> r.value.weight == form.weight && r.value.notes == form.notes
    ensures r.Ok? ==> r.value.energyLevel == ParseDigits(form.energyLevel)
    ensures r.Ok? ==> r.value.sleepQuality == LevelOrFive(form.sleepQuality)
    ensures r.Ok? ==> r.value.stressLevel == LevelOrFive(form.stressLevel)
    ensures r.Ok? ==> r.value.digestiveHealth == LevelOrFive(form.digestiveHealth)
  {
    if form.weight == "" || form.energyLevel == "" then Err(RequiredMessage)
    else Ok(Body(form.weight, ParseDigits(form.energyLevel), LevelOrFive(form.sleepQuality),
                 LevelOrFive(form.stressLevel), LevelOrFive(form.digestiveHealth), form.notes))
  }

  /** Filling only the required fields with picked levels sends 5 for the
      three optional levels. */
  lemma OnlyRequiredFilled(weight: string, energy: nat, notes: string)
    requires weight != ""
    ensures var r := BuildBody(Form(weight, NatToString(energy), "", "", "", notes));
      r.Ok? && r.value.energyLevel == energy &&
      r.value.sleepQuality == 5 && r.value.stressLevel == 5 && r.value.digestiveHealth == 5
  {
    ParseNatToString(energy);
    LevelDefaults(energy);
  }

  class AddEntryForm {
    var entry: Form
    var showAddForm: bool

    constructor ()
      ensures entry == EmptyForm && !showAddForm
    {
      entry := EmptyForm;
      showAddForm := false;
    }

    /** The header's "Add Entry" / "Cancel" toggle,
      `setShowAddForm(!showAddForm)`; the form's contents are kept. */
    method ToggleForm()
      modifies this
      ensures showAddForm == !old(showAddForm) && entry == old(entry)
    {
      showAddForm := !showAddForm;
    }

    /** The form's own "Cancel", `setShowAddForm(false)`. */
    method CloseForm()
      modifies this
      ensures !showAddForm && entry == old(entry)
    {
      showAddForm := false;
    }

    /** The empty-history prompt's "Add First Entry", `setShowAddForm(true)`. */
    method OpenForm()
      modifies this
      ensures showAddForm && entry == old(entry)
    {
      showAddForm := true;
    }

    /** One press of "Save". The request is made only for a valid form;
      `serverOk` is whether the server accepted it. On success the form is
      cleared and closed; on a rejection or a failure nothing changes. */
    method HandleAddProgress(serverOk: bool) returns (request: Option<Body>)
      modifies this
      ensures BuildBody(old(entry)).Err? <==> request.None?
      ensures request.Some? ==> request.value == BuildBody(old(entry)).value
      ensures request.Some? && serverOk ==> entry == EmptyForm && !showAddForm
      ensures request.None? || !serverOk ==> entry == old(entry) && showAddForm == old(showAddForm)
    {
      var body := BuildBody(entry);
      if body.Err? {
        request := None;
        return;
      }
      request := Some(body.value);
      if serverOk {
        showAddForm := false;
        entry := EmptyForm;
      }
    }
  }

  // ---------------------------------------------------------------------
  // Stored entries

  /** A progress entry as the page reads it; a metric the entry lacks is None. */
  datatype Entry = Entry(timestamp: int, weight: Option<int>, energyLevel: Option<int>,
                         sleepQuality: Option<int>, stressLevel: Option<int>, digestiveHealth: Option<int>)

  datatype Metric = Weight | EnergyLevel | SleepQuality | StressLevel | DigestiveHealth

  function Value(e: Entry, m: Metric): Option<int> {
    match m
    case Weight => e.weight
    case EnergyLevel => e.energyLevel
    case SleepQuality => e.sleepQuality
    case StressLevel => e.stressLevel
    case DigestiveHealth => e.digestiveHealth
  }

  /** JavaScript truthiness of a metric value: missing and 0 are falsy. */
  predicate Truthy(v: Option<int>) {
    v.Some? && v.value != 0
  }

  function Timestamp(e: Entry): int {
    e.timestamp
  }

  function NegTimestamp(e: Entry): int {
    -e.timestamp
  }

  /** The comparator `timestamp(a) - timestamp(b)`: oldest first. */
  function OldestFirst(entries: seq<Entry>): (r: seq<Entry>)
    ensures |r| == |entries| && multiset(r) == multiset(entries)
    ensures forall i, j :: 0 <= i < j < |r| ==> r[i].timestamp <= r[j].timestamp
  {
    var r := SortAsc(entries, Timestamp);
    assert SortedBy(r, Timestamp);
    r
  }

  /** The comparator `timestamp(b) - timestamp(a)`: newest first. */
  function NewestFirst(entries: seq<Entry>): (r: seq<Entry>)
    ensures |r| == |entries| && multiset(r) == multiset(entries)
    ensures forall i, j :: 0 <= i < j < |r| ==> r[i].timestamp >= r[j].timestamp
  {
    var r := SortAsc(entries, NegTimestamp);
    assert forall i, j :: 0 <= i < j < |r| ==> NegTimestamp(r[i]) <= NegTimestamp(r[j]);
    r
  }

  /** The two newest entries, as (previous, latest), of a list of two or more. */
  function NewestTwo(entries: seq<Entry>): (pair: (Entry, Entry))
    requires |entries| >= 2
  {
    var s := OldestFirst(entries);
    (s[|s| - 2], s[|s| - 1])
  }

  lemma InMultiset(entries: seq<Entry>, s: seq<Entry>, i: nat)
    requires multiset(s) == multiset(entries) && i < |s|
    ensures s[i] in entries
  {
    assert s[i] in multiset(s);
  }

  /** Both entries come from the list, the latest is at least as new as the
      previous one, and every other entry is at most as new as the previous. */
  lemma NewestTwoAreNewest(entries: seq<Entry>)
    requires |entries| >= 2
    ensures var (previous, latest) := NewestTwo(entries);
      && previous in entries && latest in entries
      && previous.timestamp <= latest.timestamp
      && (forall e :: e in entries ==> e.timestamp <= latest.timestamp)
      && multiset(entries) - multiset{previous, latest} == multiset(OldestFirst(entries)[..|entries| - 2])
      && forall e :: e in OldestFirst(entries)[..|entries| - 2] ==> e.timestamp <= previous.timestamp
  {
    var s := OldestFirst(entries);
    var n := |s|;
    InMultiset(entries, s, n - 2);
    InMultiset(entries, s, n - 1);
    LastIsNewest(entries, s);
    SplitLastTwo(s);
    RestNotNewer(s);
  }

  lemma LastIsNewest(entries: seq<Entry>, s: seq<Entry>)
    requires multiset(s) == multiset(entries) && |s| >= 1
    requires forall i, j :: 0 <= i < j < |s| ==> s[i].timestamp <= s[j].timestamp
    ensures forall e :: e in entries ==> e.timestamp <= s[|s| - 1].timestamp
  {
    forall e | e in entries
      ensures e.timestamp <= s[|s| - 1].timestamp
    {
      assert e in multiset(s);
      var k :| 0 <= k < |s| && s[k] == e;
    }
  }

  lemma SplitLastTwo(s: seq<Entry>)
    requires |s| >= 2
    ensures multiset(s) - multiset{s[|s| - 2], s[|s| - 1]} == multiset(s[..|s| - 2])
  {
    assert s == s[..|s| - 2] + [s[|s| - 2], s[|s| - 1]];
  }

  lemma RestNotNewer(s: seq<Entry>)
    requires |s| >= 2
    requires forall i, j :: 0 <= i < j < |s| ==> s[i].timestamp <= s[j].timestamp
    ensures forall e :: e in s[..|s| - 2] ==> e.timestamp <= s[|s| - 2].timestamp
  {
    forall e | e in s[..|s| - 2]
      ensures e.timestamp <= s[|s| - 2].timestamp
    {
      var k :| 0 <= k < |s| - 2 && s[..|s| - 2][k] == e;
      assert s[k] == e;
    }
  }

  datatype Trend = Trend(change: int, isPositive: bool)

  /** getProgressTrend: nothing for fewer than two entries or when either of
      the two newest has a falsy value for the metric; otherwise the change
      from the previous to the latest value, judged positive when weight
      falls or any other metric rises. */
  function ProgressTrend(entries: seq<Entry>, metric: Metric): (t: Option<Trend>)
    ensures |entries| < 2 ==> t.None?
    ensures |entries| >= 2 ==>
      var (previous, latest) := NewestTwo(entries);
      && (t.Some? <==> Truthy(Value(latest, metric)) && Truthy(Value(previous, metric)))
      && (t.Some? ==> t.value.change == Value(latest, metric).value - Value(previous, metric).value)
      && (t.Some? && metric == Weight ==> (t.value.isPositive <==> Value(latest, metric).value < Value(previous, metric).value))
      && (t.Some? && metric != Weight ==> (t.value.isPositive <==> Value(latest, metric).value > Value(previous, metric).value))
  {
    if |entries| < 2 then None
    else
      var sortedData := OldestFirst(entries);
      var latest := sortedData[|sortedData| - 1];
      var previous := sortedData[|sortedData| - 2];
      if !Truthy(Value(latest, metric)) || !Truthy(Value(previous, metric)) then None
      else
        var change := Value(latest, metric).value - Value(previous, metric).value;
        Some(Trend(change, if metric == Weight then change < 0 else change > 0))
  }

  // ---------------------------------------------------------------------
  // Chart rows

  datatype WeightPoint = WeightPoint(day: string, weight: Option<int>)

  datatype WellnessPoint = WellnessPoint(day: string, energy: int, sleep: int, stress: int, digestion: int)

  function DayLabel(index: nat): string {
    "Day " + NatToString(index + 1)
  }

  /** `value || fallback`. */
  function OrElse(v: Option<int>, fallback: int): int {
    if Truthy(v) then v.value else fallback
  }

  /** One wellness row: missing energy, sleep or digestion are drawn as 0,
      and stress is inverted as `10 - (stress || 5)`, so a missing or zero
      stress level is drawn as 5. */
  function WellnessRow(index: nat, e: Entry): (p: WellnessPoint)
    ensures p.day == DayLabel(index)
    ensures p.energy == (if e.energyLevel.Some? then e.energyLevel.value else 0)
    ensures p.sleep == (if e.sleepQuality.Some? then e.sleepQuality.value else 0)
    ensures p.digestion == (if e.digestiveHealth.Some? then e.digestiveHealth.value else 0)
    ensures p.stress == if Truthy(e.stressLevel) then 10 - e.stressLevel.value else 5
  {
    WellnessPoint(DayLabel(index), OrElse(e.energyLevel, 0), OrElse(e.sleepQuality, 0),
                  10 - OrElse(e.stressLevel, 5), OrElse(e.digestiveHealth, 0))
  }

  /** A stress level from the form's 1..10 is drawn in 0..9, higher for calmer. */
  lemma StressRowRange(index: nat, e: Entry)
    requires e.stressLevel.Some? && 1 <= e.stressLevel.value <= 10
    ensures 0 <= WellnessRow(index, e).stress <= 9
  {
  }

  class ProgressPage {
    var progressData: seq<Entry>

    constructor (loaded: seq<Entry>)
      ensures progressData == loaded
    {
      progressData := loaded;
    }

    /** getWeightChartData: sorts the state array oldest first in place and
      maps each entry to its day label and weight. */
    method WeightChartData() returns (points: seq<WeightPoint>)
      modifies this
      ensures progressData == OldestFirst(old(progressData))
      ensures |points| == |progressData|
      ensures forall i :: 0 <= i < |points| ==> points[i] == WeightPoint(DayLabel(i), progressData[i].weight)
    {
      progressData := OldestFirst(progressData);
      points := [];
      for i := 0 to |progressData|
        invariant |points| == i
        invariant forall k :: 0 <= k < i ==> points[k] == WeightPoint(DayLabel(k), progressData[k].weight)
      {
        points := points + [WeightPoint(DayLabel(i), progressData[i].weight)];
      }
    }

    /** getWellnessChartData: the same in-place sort, one wellness row per entry. */
    method WellnessChartData() returns (points: seq<WellnessPoint>)
      modifies this
      ensures progressData == OldestFirst(old(progressData))
      ensures |points| == |progressData|
      ensures forall i :: 0 <= i < |points| ==> points[i] == WellnessRow(i, progressData[i])
    {
      progressData := OldestFirst(progressData);
      points := [];
      for i := 0 to |progressData|
        invariant |points| == i
        invariant forall k :: 0 <= k < i ==> points[k] == WellnessRow(k, progressData[k])
      {
        points := points + [WellnessRow(i, progressData[i])];
      }
    }

    /** getLatestEntry: nothing for an empty list; otherwise sorts the state
      array newest first in place and returns its head, an entry with the
      greatest timestamp. */
    method LatestEntry() returns (latest: Option<Entry>)
      modifies this
      ensures old(progressData) == [] ==> latest.None? && progressData == old(progressData)
      ensures old(progressData) != [] ==> progressData == NewestFirst(old(progressData))
      ensures old(progressData) != [] ==> latest == Some(progressData[0])
      ensures latest.Some? ==> latest.value in old(progressData)
      ensures latest.Some? ==> forall e :: e in old(progressData) ==> e.timestamp <= latest.value.timestamp
    {
      if |progressData| == 0 {
        return None;
      }
      ghost var before := progressData;
      progressData := NewestFirst(progressData);
      latest := Some(progressData[0]);
      InMultiset(before, progressData, 0);
      forall e | e in before
        ensures e.timestamp <= progressData[0].timestamp
      {
        assert e in multiset(progressData);
        var k :| 0 <= k < |progressData| && progressData[k] == e;
      }
    }
  }
}
