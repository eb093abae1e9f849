/** The meal planner's document: the ingredient table (`zutaten`), the recipe
    table (`rezepte`) and the weekly plan (`wochenplan`), as kept in memory and
    persisted as one JSON object. */
module Model {

  datatype Option<T> = None | Some(value: T)

  /** Grams of protein, carbohydrates and fat and kilocalories: either per
      100 g of an ingredient or the total of a recipe or a week. */
  datatype Nutrition = Nutrition(protein: real, kohlenhydrate: real, fett: real, kalorien: real)
  {
    function Plus(o: Nutrition): Nutrition {
      Nutrition(protein + o.protein, kohlenhydrate + o.kohlenhydrate, fett + o.fett, kalorien + o.kalorien)
    }

    function Scale(f: real): Nutrition {
      Nutrition(protein * f, kohlenhydrate * f, fett * f, kalorien * f)
    }

    predicate NonNegative() {
      protein >= 0.0 && kohlenhydrate >= 0.0 && fett >= 0.0 && kalorien >= 0.0
    }
  }

  const Zero := Nutrition(0.0, 0.0, 0.0, 0.0)

  /** An entry of `zutaten`: values per 100 g and a category. The category
      is optional because the program reads it with a default
      (`zutat.get("kategorie", "Sonstiges")`). */
  datatype Ingredient = Ingredient(protein: real, kohlenhydrate: real, fett: real, kalorien: real,
                                   kategorie: Option<string>)
  {
    function PerHundredGrams(): Nutrition {
      Nutrition(protein, kohlenhydrate, fett, kalorien)
    }
  }

  /** An entry of `rezepte`: grams per ingredient name, and a serving count. */
  datatype Recipe = Recipe(zutaten: map<string, real>, portionen: int)

  /** A scheduled meal: a time of day "HH:MM" and a recipe name. The empty
      recipe name stands for every falsy value the program tests for. */
  datatype Meal = Meal(zeit: string, rezept: string)

  /** One key of `wochenplan` with its list of meals. */
  datatype Day = Day(tag: string, meals: seq<Meal>)

  /** `wochenplan` in its current shape: the days in the order of the JSON
      object, which Python's dict keeps. */
  type Plan = seq<Day>

  /** The days of a freshly created document, in order. */
  const Weekdays: seq<string> := ["Montag", "Dienstag", "Mittwoch", "Donnerstag", "Freitag", "Samstag", "Sonntag"]

  function Tags(p: Plan): (r: seq<string>)
    ensures |r| == |p| && forall i :: 0 <= i < |p| ==> r[i] == p[i].tag
  {
    seq(|p|, i requires 0 <= i < |p| => p[i].tag)
  }

  /** Dictionary keys are unique. */
  predicate DistinctTags(p: Plan) {
    forall i, j :: 0 <= i < j < |p| ==> p[i].tag != p[j].tag
  }

  predicate HasDay(p: Plan, tag: string) {
    exists i :: 0 <= i < |p| && p[i].tag == tag
  }

  /** Every weekday that the plan tab's day selector offers and its weekly
      overview looks up is a key of the plan. */
  predicate HasWeekdays(p: Plan) {
    forall t :: t in Weekdays ==> HasDay(p, t)
  }

  /** Plans with the same keys in the same order have the same days. */
  lemma SameTagsSameDays(a: Plan, b: Plan)
    requires Tags(a) == Tags(b)
    ensures forall t :: HasDay(a, t) <==> HasDay(b, t)
  {
    SameTagsKeepDays(a, b);
    SameTagsKeepDays(b, a);
  }

  lemma SameTagsKeepDays(a: Plan, b: Plan)
    requires Tags(a) == Tags(b)
    ensures forall t :: HasDay(a, t) ==> HasDay(b, t)
  {
    forall t | HasDay(a, t)
      ensures HasDay(b, t)
    {
      var i :| 0 <= i < |a| && a[i].tag == t;
      assert Tags(a)[i] == Tags(b)[i];
    }
  }

  /** The position of day `tag`. */
  function IndexOf(p: Plan, tag: string): (i: nat)
    requires HasDay(p, tag)
    ensures i < |p| && p[i].tag == tag
    ensures forall j :: 0 <= j < i ==> p[j].tag != tag
  {
    if p[0].tag == tag then 0
    else
      assert HasDay(p[1..], tag) by {
        var k :| 0 <= k < |p| && p[k].tag == tag;
        assert p[1..][k - 1] == p[k];
      }
      1 + IndexOf(p[1..], tag)
  }

  /** `wochenplan[tag]` for a day that is there. */
  function MealsOf(p: Plan, tag: string): seq<Meal>
    requires HasDay(p, tag)
  {
    p[IndexOf(p, tag)].meals
  }

  /** `wochenplan[tag] = meals`: replaces the list of a day that is there,
      keeping its position, and adds the day at the end otherwise. */
  function SetDay(p: Plan, tag: string, meals: seq<Meal>): (r: Plan)
    ensures DistinctTags(p) ==> DistinctTags(r)
    ensures HasDay(r, tag) && MealsOf(r, tag) == meals
    ensures HasDay(p, tag) ==> Tags(r) == Tags(p)
    ensures !HasDay(p, tag) ==> Tags(r) == Tags(p) + [tag]
    ensures forall i :: 0 <= i < |p| && p[i].tag != tag ==> r[i] == p[i]
    ensures forall t :: HasDay(p, t) ==> HasDay(r, t)
  {
    if HasDay(p, tag) then
      var r := p[IndexOf(p, tag) := Day(tag, meals)];
      assert Tags(r) == Tags(p);
      SameTagsSameDays(p, r);
      r
    else
      var r := p + [Day(tag, meals)];
      assert r[|p|].tag == tag;
      assert Tags(r) == Tags(p) + [tag];
      assert forall i :: 0 <= i < |p| ==> r[i] == p[i];
      r
  }

  /** The test both the weekly totals and the shopping list apply to a meal:
      `rezept_name and rezept_name in data["rezepte"]`. */
  predicate Resolves(m: Meal, rezepte: map<string, Recipe>) {
    m.rezept != "" && m.rezept in rezepte
  }

  /** The recipe names of the meals of one day that resolve, in order. */
  function ResolvedInDay(meals: seq<Meal>, rezepte: map<string, Recipe>): (r: seq<string>)
    ensures |r| <= |meals|
    ensures forall n :: n in r ==> n in rezepte
  {
    if meals == [] then []
    else
      var m := meals[|meals| - 1];
      ResolvedInDay(meals[..|meals| - 1], rezepte) + (if Resolves(m, rezepte) then [m.rezept] else [])
  }

  /** The recipe names of all resolving meal occurrences of the week, day by
      day in plan order. */
  function ResolvedRecipes(p: Plan, rezepte: map<string, Recipe>): (r: seq<string>)
    ensures forall n :: n in r ==> n in rezepte
  {
    if p == [] then []
    else ResolvedRecipes(p[..|p| - 1], rezepte) + ResolvedInDay(p[|p| - 1].meals, rezepte)
  }

  lemma AppendAssociative<T>(a: seq<T>, b: seq<T>, c: seq<T>)
    ensures a + (b + c) == (a + b) + c
  {
  }

  lemma ResolvedInDayPrefix(meals: seq<Meal>, j: nat, rezepte: map<string, Recipe>)
    requires j == 0 || j == |meals|
    ensures j == 0 ==> ResolvedInDay(meals[..j], rezepte) == []
    ensures j == |meals| ==> ResolvedInDay(meals[..j], rezepte) == ResolvedInDay(meals, rezepte)
  {
    assert j == |meals| ==> meals[..j] == meals;
  }

  lemma ResolvedInDayStep(meals: seq<Meal>, j: nat, rezepte: map<string, Recipe>)
    requires j < |meals|
    ensures Resolves(meals[j], rezepte) ==> ResolvedInDay(meals[..j + 1], rezepte) == ResolvedInDay(meals[..j], rezepte) + [meals[j].rezept]
    ensures !Resolves(meals[j], rezepte) ==> ResolvedInDay(meals[..j + 1], rezepte) == ResolvedInDay(meals[..j], rezepte)
  {
    assert meals[..j + 1][..j] == meals[..j];
    assert ResolvedInDay(meals[..j], rezepte) + [] == ResolvedInDay(meals[..j], rezepte);
  }

  lemma ResolvedRecipesStep(p: Plan, i: nat, rezepte: map<string, Recipe>)
    requires i < |p|
    ensures ResolvedRecipes(p[..i + 1], rezepte) == ResolvedRecipes(p[..i], rezepte) + ResolvedInDay(p[i].meals, rezepte)
  {
    assert p[..i + 1][..i] == p[..i];
  }

  /** Whether some meal of the plan refers to recipe `name`. */
  predicate IsScheduled(p: Plan, name: string) {
    exists i, j :: 0 <= i < |p| && 0 <= j < |p[i].meals| && p[i].meals[j].rezept == name
  }

  /** Every recipe refers only to ingredients that exist. */
  predicate IngredientsResolve(zutaten: map<string, Ingredient>, rezepte: map<string, Recipe>) {
    forall r, z :: r in rezepte && z in rezepte[r].zutaten ==> z in zutaten
  }

  /** Every meal refers to a recipe that exists. */
  predicate MealsResolve(p: Plan, rezepte: map<string, Recipe>) {
    forall i, j :: 0 <= i < |p| && 0 <= j < |p[i].meals| ==> p[i].meals[j].rezept in rezepte
  }
}
