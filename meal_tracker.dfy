/** The weekly diet-plan page (DietPlan.tsx): the sample plan shown when
    none is stored, the completed-meals list with its per-button guard, the
    weekly completion figure, and the display lookups with their defaults. */
module MealTracker {
  import opened Common

  // ---------------------------------------------------------------------
  // The sample plan and the meal cells

  datatype Meal = Breakfast | Lunch | Dinner

  function MealName(m: Meal): string {
    match m
    case Breakfast => "breakfast"
    case Lunch => "lunch"
    case Dinner => "dinner"
  }

  /** generateSampleDietPlan's weekly lists (the meal part of it). */
  function SampleWeek(m: Meal): seq<string> {
    match m
    case Breakfast => [
      "Warm oatmeal with almonds and ghee", "Spiced quinoa porridge with dates", "Kitchari with vegetables",
      "Warm milk with turmeric and honey", "Rice pudding with cardamom", "Warm smoothie with banana and almonds",
      "Cooked apples with cinnamon"]
    case Lunch => [
      "Kitchari with ghee and vegetables", "Rice with dal and steamed greens", "Vegetable curry with quinoa",
      "Lentil soup with bread", "Spiced vegetables with rice", "Chickpea curry with flatbread",
      "Warming vegetable stew"]
    case Dinner => [
      "Light dal with steamed vegetables", "Vegetable soup with rice", "Gentle spiced vegetables",
      "Warm milk with almonds", "Light kitchari", "Herbal tea with crackers",
      "Digestive tea with light snack"]
  }

  /** The text a meal cell shows when the plan has no entry for the day. */
  function FallbackText(m: Meal): string {
    match m
    case Breakfast => "Warm oatmeal with almonds and ghee"
    case Lunch => "Kitchari with vegetables and ghee"
    case Dinner => "Light dal with steamed vegetables"
  }

  /** `dietPlan.weeklyPlan?.<meal>?.[dayIndex] || fallback`: the plan's entry
      when it is there and non-empty, the fallback text otherwise. */
  function MealText(week: Option<seq<string>>, day: nat, m: Meal): (t: string)
    ensures t == FallbackText(m) || (week.Some? && day < |week.value| && t == week.value[day])
    ensures week.Some? && day < |week.value| && week.value[day] != "" ==> t == week.value[day]
    ensures !(week.Some? && day < |week.value| && week.value[day] != "") ==> t == FallbackText(m)
  {
    if week.Some? && day < |week.value| && week.value[day] != "" then week.value[day] else FallbackText(m)
  }

  /** The sample week has an entry for each of the seven rendered days, so
      none of its cells falls back. */
  lemma SampleNeedsNoFallback(m: Meal, day: nat)
    requires day < 7
    ensures |SampleWeek(m)| == 7
    ensures MealText(Some(SampleWeek(m)), day, m) == SampleWeek(m)[day]
  {
    SampleEntriesPresent(m);
  }

  lemma SampleEntriesPresent(m: Meal)
    ensures |SampleWeek(m)| == 7 && forall i :: 0 <= i < 7 ==> SampleWeek(m)[i] != ""
  {
    match m
    case Breakfast => BreakfastsPresent();
    case Lunch => LunchesPresent();
    case Dinner => DinnersPresent();
  }

  lemma BreakfastsPresent()
    ensures |SampleWeek(Breakfast)| == 7 && forall i :: 0 <= i < 7 ==> SampleWeek(Breakfast)[i] != ""
  {
    WeekPresent(SampleWeek(Breakfast));
  }

  lemma LunchesPresent()
    ensures |SampleWeek(Lunch)| == 7 && forall i :: 0 <= i < 7 ==> SampleWeek(Lunch)[i] != ""
  {
    WeekPresent(SampleWeek(Lunch));
  }

  lemma DinnersPresent()
    ensures |SampleWeek(Dinner)| == 7 && forall i :: 0 <= i < 7 ==> SampleWeek(Dinner)[i] != ""
  {
    WeekPresent(SampleWeek(Dinner));
  }

  lemma WeekPresent(w: seq<string>)
    requires |w| == 7
    requires |w[0]| > 0 && |w[1]| > 0 && |w[2]| > 0 && |w[3]| > 0 && |w[4]| > 0 && |w[5]| > 0 && |w[6]| > 0
    ensures forall i :: 0 <= i < 7 ==> w[i] != ""
  {
  }

  // ---------------------------------------------------------------------
  // Completion keys

  /** The key `${meal}-${dayIndex}` of one meal button. */
  function MealKey(m: Meal, day: nat): string {
    MealName(m) + "-" + NatToString(day)
  }

  /** Every key a button of the seven rendered days can add. */
  const AllMealKeys: seq<string> :=
    seq(21, i requires 0 <= i < 21 => MealKey(if i < 7 then Breakfast else if i < 14 then Lunch else Dinner, i % 7))

  lemma MealKeyListed(m: Meal, day: nat)
    requires day < 7
    ensures MealKey(m, day) in AllMealKeys
  {
    var i := match m case Breakfast => day case Lunch => 7 + day case Dinner => 14 + day;
    assert AllMealKeys[i] == MealKey(m, day);
  }

  predicate NoDuplicates(s: seq<string>) {
    forall i, j :: 0 <= i < j < |s| ==> s[i] != s[j]
  }

  lemma {:induction false} DistinctElementsCount(s: seq<string>)
    requires NoDuplicates(s)
    ensures |set x | x in s| == |s|
  {
    if s != [] {
      var init := s[..|s| - 1];
      DistinctElementsCount(init);
      assert (set x | x in s) == (set x | x in init) + {s[|s| - 1]};
      forall i | 0 <= i < |init|
        ensures init[i] != s[|s| - 1]
      {
        assert init[i] == s[i];
      }
    }
  }

  lemma {:induction false} ElementsCountBound(s: seq<string>)
    ensures |set x | x in s| <= |s|
  {
    if s != [] {
      var init := s[..|s| - 1];
      ElementsCountBound(init);
      assert (set x | x in s) == (set x | x in init) + {s[|s| - 1]};
    }
  }

  lemma {:induction false} SubsetCount(a: set<string>, b: set<string>)
    requires a <= b
    ensures |a| <= |b|
  {
    if a != {} {
      var x :| x in a;
      SubsetCount(a - {x}, b - {x});
    }
  }

  /** A list without duplicates drawn from the 21 keys has at most 21 entries. */
  lemma {:induction false} AtMostTwentyOne(s: seq<string>)
    requires NoDuplicates(s) && forall k :: k in s ==> k in AllMealKeys
    ensures |s| <= 21
  {
    DistinctElementsCount(s);
    ElementsCountBound(AllMealKeys);
    SubsetCount(set x | x in s, set x | x in AllMealKeys);
  }

  /** `Math.round(len / 21 * 100)`, as the exact rational rounding. */
  function CompletionPercent(len: nat): (p: nat)
    ensures 42 * p <= 200 * len + 21 < 42 * (p + 1)
    ensures len <= 21 ==> p <= 100
    ensures p == 100 <==> len == 21
  {
    (200 * len + 21) / 42
  }

  class MealTracker {
    var completedMeals: seq<string>

    /** No key twice and only keys of rendered buttons. */
    ghost predicate Valid()
      reads this
    {
      NoDuplicates(completedMeals) && forall k :: k in completedMeals ==> k in AllMealKeys
    }

    constructor ()
      ensures Valid() && completedMeals == []
    {
      completedMeals := [];
    }

    /** markMealComplete: the key goes at the end, nothing else changes. */
    method MarkMealComplete(mealKey: string)
      modifies this
      ensures completedMeals == old(completedMeals) + [mealKey]
    {
      completedMeals := completedMeals + [mealKey];
    }

    /** `disabled={completedMeals.includes(key)}`. */
    predicate ButtonDisabled(m: Meal, day: nat)
      reads this
    {
      MealKey(m, day) in completedMeals
    }

    /** A click on the button of meal `m` of day `day`: a disabled button
      does nothing, an enabled one marks the meal. */
    method Click(m: Meal, day: nat)
      requires Valid() && day < 7
      modifies this
      ensures Valid()
      ensures completedMeals == if old(ButtonDisabled(m, day)) then old(completedMeals)
                                else old(completedMeals) + [MealKey(m, day)]
    {
      if !ButtonDisabled(m, day) {
        MealKeyListed(m, day);
        MarkMealComplete(MealKey(m, day));
      }
    }

    /** The "% complete" figure never passes 100 under the guard. */
    function Completion(): (p: nat)
      reads this
      requires Valid()
      ensures p <= 100
      ensures p == CompletionPercent(|completedMeals|)
    {
      AtMostTwentyOne(completedMeals);
      CompletionPercent(|completedMeals|)
    }
  }

  // ---------------------------------------------------------------------
  // Display lookups

  const Days: seq<string> := ["Monday", "Tuesday", "Wednesday", "Thursday", "Friday", "Saturday", "Sunday"]

  /** getDayName: `days[index] || \`Day ${index + 1}\``. A weekday name comes
      back exactly for the indices 0..6. */
  function DayName(index: int): (name: string)
    ensures 0 <= index < 7 ==> name == Days[index]
    ensures name in Days <==> 0 <= index < 7
    ensures !(0 <= index < 7) ==> name == "Day " + IntToString(index + 1)
  {
    if 0 <= index < 7 then Days[index]
    else
      var n := "Day " + IntToString(index + 1);
      assert n[0] == 'D' && n[1] == 'a';
      n
  }

  /** `toLowerCase` on ASCII letters. */
  function LowerChar(c: char): char {
    if 'A' <= c <= 'Z' then (c as int + 32) as char else c
  }

  function Lower(s: string): (r: string)
    ensures |r| == |s|
    ensures forall i :: 0 <= i < |s| ==> r[i] == LowerChar(s[i])
  {
    seq(|s|, i requires 0 <= i < |s| => LowerChar(s[i]))
  }

  lemma LowerIdempotent(s: string)
    ensures Lower(Lower(s)) == Lower(s)
  {
  }

  const VataColor := "bg-blue-50 border-blue-200 text-blue-800"
  const PittaColor := "bg-red-50 border-red-200 text-red-800"
  const KaphaColor := "bg-green-50 border-green-200 text-green-800"
  const DefaultColor := "bg-gray-50 border-gray-200 text-gray-800"

  /** getPrakritiColor on `prakriti?.toLowerCase()`: a missing value and every
      name other than the three (in any letter case) get the gray default. */
  function PrakritiColor(prakriti: Option<string>): (color: string)
    ensures prakriti.Some? && Lower(prakriti.value) == "vata" ==> color == VataColor
    ensures prakriti.Some? && Lower(prakriti.value) == "pitta" ==> color == PittaColor
    ensures prakriti.Some? && Lower(prakriti.value) == "kapha" ==> color == KaphaColor
    ensures color == DefaultColor <==>
      (prakriti.None? || Lower(prakriti.value) !in {"vata", "pitta", "kapha"})
  {
    if prakriti.None? then DefaultColor
    else
      var p := Lower(prakriti.value);
      if p == "vata" then VataColor
      else if p == "pitta" then PittaColor
      else if p == "kapha" then KaphaColor
      else DefaultColor
  }

  /** The colour depends on the name only up to letter case. */
  lemma ColorIgnoresCase(s: string, t: string)
    requires Lower(s) == Lower(t)
    ensures PrakritiColor(Some(s)) == PrakritiColor(Some(t))
  {
  }

  const Descriptions: map<string, string> := map[
    "Regular sleep schedule" := "Maintain consistent bedtime and wake-up times to support your natural circadian rhythm",
    "Oil massage" := "Daily self-massage with warm sesame oil to calm the nervous system and nourish the skin",
    "Gentle yoga" := "Practice calming, grounding yoga poses to balance Vata energy",
    "Meditation" := "Regular meditation practice to calm the mind and reduce stress",
    "Avoid excessive heat" := "Stay cool and avoid prolonged sun exposure to prevent Pitta aggravation",
    "Swimming" := "Cooling water activities that help balance Pitta constitution",
    "Moonlight walks" := "Evening walks in cool, calm environments to soothe Pitta energy",
    "Cooling pranayama" := "Breathing practices like Sheetali and Sheetkari to cool the body",
    "Regular vigorous exercise" := "Daily physical activity to stimulate metabolism and reduce Kapha",
    "Early rising" := "Wake up before 6 AM to avoid morning Kapha heaviness",
    "Dry brushing" := "Daily dry skin brushing to stimulate circulation and lymphatic drainage",
    "Stimulating activities" := "Engage in energizing, motivating activities to counter Kapha lethargy"]

  const DefaultDescription := "Follow this practice regularly for optimal health"

  /** getLifestyleDescription: the mapped text for a listed practice, the
      default text exactly for the unlisted ones. */
  function LifestyleDescription(recommendation: string): (d: string)
    ensures recommendation in Descriptions ==> d == Descriptions[recommendation]
    ensures d == DefaultDescription <==> recommendation !in Descriptions
  {
    if recommendation in Descriptions then Descriptions[recommendation] else DefaultDescription
  }
}
