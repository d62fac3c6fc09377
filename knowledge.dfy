/** The server's static knowledge: the recommendation bundle and the base
    diet plan per dosha, looked up by name with the vata entry as the
    fallback for any other name (index.tsx, generatePrakritiRecommendations
    and generateDietPlan). */
module Knowledge {

  datatype Dosha = Vata | Pitta | Kapha

  /** The key under which the tables list a dosha. */
  function Name(d: Dosha): string {
    match d
    case Vata => "vata"
    case Pitta => "pitta"
    case Kapha => "kapha"
  }

  /** The entry a lookup by `name` lands on: the dosha of that exact name,
      and vata for every other string. */
  function Resolve(name: string): (d: Dosha)
    ensures name == "vata" || name == "pitta" || name == "kapha" ==> Name(d) == name
    ensures name != "vata" && name != "pitta" && name != "kapha" ==> d == Vata
  {
    if name == "pitta" then Pitta else if name == "kapha" then Kapha else Vata
  }

  lemma {:induction false} ResolveName(d: Dosha)
    ensures Resolve(Name(d)) == d
  {
    match d
    case Vata =>
    case Pitta =>
    case Kapha =>
  }

  // ---------------------------------------------------------------------
  // Recommendations (index.tsx:472-495)

  datatype Recommendations = Recommendations(
    diet: seq<string>,
    lifestyle: seq<string>,
    foodsToInclude: seq<string>,
    foodsToAvoid: seq<string>)

  function RecommendationTable(d: Dosha): Recommendations {
    match d
    case Vata => Recommendations(
      ["Warm, cooked foods", "Sweet, sour, and salty tastes", "Regular meal times", "Avoid cold drinks"],
      ["Regular sleep schedule", "Gentle exercise", "Meditation", "Avoid excessive stimulation"],
      ["Rice", "Wheat", "Dairy", "Nuts", "Sweet fruits"],
      ["Raw vegetables", "Bitter and astringent foods", "Caffeine", "Cold foods"])
    case Pitta => Recommendations(
      ["Cool, fresh foods", "Sweet, bitter, and astringent tastes", "Avoid spicy foods", "Moderate portions"],
      ["Avoid excessive heat", "Moderate exercise", "Cool environments", "Stress management"],
      ["Leafy greens", "Sweet fruits", "Coconut", "Cucumber", "Mint"],
      ["Spicy foods", "Sour fruits", "Alcohol", "Red meat"])
    case Kapha => Recommendations(
      ["Light, warm foods", "Pungent, bitter, and astringent tastes", "Smaller portions", "Avoid heavy foods"],
      ["Regular vigorous exercise", "Early rising", "Active lifestyle", "Avoid oversleeping"],
      ["Spices", "Legumes", "Vegetables", "Light grains", "Honey"],
      ["Dairy", "Sweet foods", "Cold foods", "Excessive fats"])
  }

  /** generatePrakritiRecommendations: the table entry for the name, vata's
      for any name the table does not list. Every bundle has four diet and
      four lifestyle lines, five foods to include and four to avoid, and no
      food is both included and avoided. */
  function RecommendationsFor(dominantDosha: string): (r: Recommendations)
    ensures r == RecommendationTable(Resolve(dominantDosha))
    ensures |r.diet| == 4 && |r.lifestyle| == 4 && |r.foodsToInclude| == 5 && |r.foodsToAvoid| == 4
    ensures forall f :: f in r.foodsToInclude ==> f !in r.foodsToAvoid
  {
    BundleShape(Resolve(dominantDosha));
    RecommendationTable(Resolve(dominantDosha))
  }

  /** Every bundle has the sizes above, and no bundle lists a food both to
      include and to avoid. */
  lemma BundleShape(d: Dosha)
    ensures var r := RecommendationTable(d);
      |r.diet| == 4 && |r.lifestyle| == 4 && |r.foodsToInclude| == 5 && |r.foodsToAvoid| == 4
    ensures forall f :: f in RecommendationTable(d).foodsToInclude ==> f !in RecommendationTable(d).foodsToAvoid
  {
    match d
    case Vata => VataBundle();
    case Pitta => PittaBundle();
    case Kapha => KaphaBundle();
  }

  lemma VataBundle()
    ensures var r := RecommendationTable(Vata);
      |r.diet| == 4 && |r.lifestyle| == 4 && |r.foodsToInclude| == 5 && |r.foodsToAvoid| == 4
    ensures forall f :: f in RecommendationTable(Vata).foodsToInclude ==> f !in RecommendationTable(Vata).foodsToAvoid
  {
  }

  lemma PittaBundle()
    ensures var r := RecommendationTable(Pitta);
      |r.diet| == 4 && |r.lifestyle| == 4 && |r.foodsToInclude| == 5 && |r.foodsToAvoid| == 4
    ensures forall f :: f in RecommendationTable(Pitta).foodsToInclude ==> f !in RecommendationTable(Pitta).foodsToAvoid
  {
  }

  lemma KaphaBundle()
    ensures var r := RecommendationTable(Kapha);
      |r.diet| == 4 && |r.lifestyle| == 4 && |r.foodsToInclude| == 5 && |r.foodsToAvoid| == 4
    ensures forall f :: f in RecommendationTable(Kapha).foodsToInclude ==> f !in RecommendationTable(Kapha).foodsToAvoid
  {
  }

  /** A lookup by any name the table does not list gives exactly what a
      lookup of "vata" gives. */
  lemma UnknownNameGetsVata(name: string)
    requires name != "vata" && name != "pitta" && name != "kapha"
    ensures RecommendationsFor(name) == RecommendationsFor("vata")
    ensures DietPlanFor(name) == DietPlanFor("vata")
  {
  }

  // ---------------------------------------------------------------------
  // Base diet plans (index.tsx:497-521)

  datatype DietPlan = DietPlan(
    breakfast: seq<string>,
    lunch: seq<string>,
    dinner: seq<string>,
    snacks: seq<string>)

  function DietPlanTable(d: Dosha): DietPlan {
    match d
    case Vata => DietPlan(
      ["Warm oatmeal with nuts and honey", "Herbal tea", "Cooked fruits"],
      ["Rice with dal", "Steamed vegetables", "Ghee"],
      ["Soup with vegetables", "Whole grain bread", "Warm milk"],
      ["Nuts and dates", "Warm herbal tea", "Sweet fruits"])
    case Pitta => DietPlan(
      ["Cool cereals", "Sweet fruits", "Coconut water"],
      ["Salads with cucumber", "Quinoa", "Mint lassi"],
      ["Light soup", "Steamed rice", "Cooling herbs"],
      ["Fresh fruits", "Coconut water", "Cooling drinks"])
    case Kapha => DietPlan(
      ["Spiced tea", "Light fruits", "Honey"],
      ["Spicy vegetables", "Millet", "Ginger tea"],
      ["Light soup", "Steamed vegetables", "Herbal tea"],
      ["Spiced nuts", "Ginger tea", "Light fruits"])
  }

  function DietPlanFor(dosha: string): (p: DietPlan)
    ensures p == DietPlanTable(Resolve(dosha))
    ensures |p.breakfast| == 3 && |p.lunch| == 3 && |p.dinner| == 3 && |p.snacks| == 3
  {
    PlanShape(Resolve(dosha));
    DietPlanTable(Resolve(dosha))
  }

  /** Every base plan lists three items per meal. */
  lemma PlanShape(d: Dosha)
    ensures var p := DietPlanTable(d);
      |p.breakfast| == 3 && |p.lunch| == 3 && |p.dinner| == 3 && |p.snacks| == 3
  {
    match d
    case Vata =>
    case Pitta =>
    case Kapha =>
  }

  /** generateDietPlan takes preferences, goals and restrictions and ignores
      all three: they are accepted here as opaque request values. */
  function GenerateDietPlan<P>(dosha: string, preferences: P, goals: P, restrictions: P): (p: DietPlan)
    ensures p == DietPlanFor(dosha)
  {
    DietPlanTable(Resolve(dosha))
  }

  lemma GenerateIgnoresRequest<P>(dosha: string, p1: P, g1: P, r1: P, p2: P, g2: P, r2: P)
    ensures GenerateDietPlan(dosha, p1, g1, r1) == GenerateDietPlan(dosha, p2, g2, r2)
  {
  }
}
