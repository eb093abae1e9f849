/** The dashboard's weekly overview (meal_planner.py:129-143 and :160-162):
    the summed nutrition of every resolving meal occurrence of the week, the
    number of those occurrences, and the average per day over seven days. */
module Weekly {
  import opened Model
  import opened RecipeNutrition

  /** The totals of the recipe named `n`; a name that is not a recipe,
      which the loop never reaches, adds nothing. */
  ghost function RecipeTotal(n: string, rezepte: map<string, Recipe>, zutaten: map<string, Ingredient>): Nutrition {
    if n in rezepte then Total(rezepte[n], zutaten) else Zero
  }

  /** The summed totals of the recipes `names`, one term per occurrence. */
  ghost function TotalOf(names: seq<string>, rezepte: map<string, Recipe>, zutaten: map<string, Ingredient>): Nutrition {
    if names == [] then Zero
    else TotalOf(names[..|names| - 1], rezepte, zutaten).Plus(RecipeTotal(names[|names| - 1], rezepte, zutaten))
  }

  ghost function WeeklyTotals(p: Plan, rezepte: map<string, Recipe>, zutaten: map<string, Ingredient>): Nutrition {
    TotalOf(ResolvedRecipes(p, rezepte), rezepte, zutaten)
  }

  function MealCount(p: Plan, rezepte: map<string, Recipe>): nat {
    |ResolvedRecipes(p, rezepte)|
  }

  /** The dashboard loop: over the days in plan order and each day's meals,
      a meal whose recipe name is non-empty and present counts once and adds
      its recipe's totals. */
  method AggregateWeek(p: Plan, rezepte: map<string, Recipe>, zutaten: map<string, Ingredient>)
    returns (totals: Nutrition, mealCount: nat)
    ensures totals == WeeklyTotals(p, rezepte, zutaten)
    ensures mealCount == MealCount(p, rezepte)
  {
    totals, mealCount := Zero, 0;
    var i := 0;
    while i < |p|
      invariant 0 <= i <= |p|
      invariant mealCount == |ResolvedRecipes(p[..i], rezepte)|
      invariant totals == TotalOf(ResolvedRecipes(p[..i], rezepte), rezepte, zutaten)
    {
      totals, mealCount := AggregateDay(p[i].meals, rezepte, zutaten, totals, mealCount, ResolvedRecipes(p[..i], rezepte));
      ResolvedRecipesStep(p, i, rezepte);
      i := i + 1;
    }
    assert p[..i] == p;
  }

  /** The loop over one day's meals: the totals and count so far, for the
      occurrences `done`, extended by every resolving meal of the day. */
  method AggregateDay(mahlzeiten: seq<Meal>, rezepte: map<string, Recipe>, zutaten: map<string, Ingredient>,
                      totals0: Nutrition, mealCount0: nat, ghost done: seq<string>)
    returns (totals: Nutrition, mealCount: nat)
    requires mealCount0 == |done| && totals0 == TotalOf(done, rezepte, zutaten)
    ensures mealCount == |done + ResolvedInDay(mahlzeiten, rezepte)|
    ensures totals == TotalOf(done + ResolvedInDay(mahlzeiten, rezepte), rezepte, zutaten)
  {
    totals, mealCount := totals0, mealCount0;
    var j := 0;
    ResolvedInDayPrefix(mahlzeiten, 0, rezepte);
    assert done + [] == done;
    while j < |mahlzeiten|
      invariant 0 <= j <= |mahlzeiten|
      invariant mealCount == |done + ResolvedInDay(mahlzeiten[..j], rezepte)|
      invariant totals == TotalOf(done + ResolvedInDay(mahlzeiten[..j], rezepte), rezepte, zutaten)
    {
      var name := mahlzeiten[j].rezept;
      AggregateStep(done, mahlzeiten, j, rezepte, zutaten);
      if name != "" && name in rezepte {
        mealCount := mealCount + 1;
        var nutrition := CalculateRecipeNutrition(rezepte[name], zutaten);
        totals := totals.Plus(nutrition);
      }
      j := j + 1;
    }
    ResolvedInDayPrefix(mahlzeiten, j, rezepte);
  }

  /** What one more meal of the day adds to the occurrences counted. */
  lemma AggregateStep(done: seq<string>, meals: seq<Meal>, j: nat, rezepte: map<string, Recipe>, zutaten: map<string, Ingredient>)
    requires j < |meals|
    ensures Resolves(meals[j], rezepte)
            ==> |done + ResolvedInDay(meals[..j + 1], rezepte)| == |done + ResolvedInDay(meals[..j], rezepte)| + 1
    ensures Resolves(meals[j], rezepte)
            ==> TotalOf(done + ResolvedInDay(meals[..j + 1], rezepte), rezepte, zutaten)
                == TotalOf(done + ResolvedInDay(meals[..j], rezepte), rezepte, zutaten).Plus(Total(rezepte[meals[j].rezept], zutaten))
    ensures !Resolves(meals[j], rezepte) ==> done + ResolvedInDay(meals[..j + 1], rezepte) == done + ResolvedInDay(meals[..j], rezepte)
  {
    ResolvedInDayStep(meals, j, rezepte);
    var before := done + ResolvedInDay(meals[..j], rezepte);
    if Resolves(meals[j], rezepte) {
      AppendAssociative(done, ResolvedInDay(meals[..j], rezepte), [meals[j].rezept]);
      TotalOfSnoc(before, meals[j].rezept, rezepte, zutaten);
    }
  }

  lemma TotalOfSnoc(names: seq<string>, n: string, rezepte: map<string, Recipe>, zutaten: map<string, Ingredient>)
    requires n in rezepte
    ensures TotalOf(names + [n], rezepte, zutaten) == TotalOf(names, rezepte, zutaten).Plus(Total(rezepte[n], zutaten))
  {
    assert (names + [n])[..|names|] == names;
  }

  /** The average per day shown below the totals: the totals divided by
      seven, shown only when at least one meal counted. */
  function DailyAverage(totals: Nutrition, mealCount: nat): (avg: Option<Nutrition>)
    ensures avg.Some? <==> mealCount > 0
    ensures avg.Some? ==> avg.value.Scale(7.0) == totals
  {
    if mealCount > 0 then Some(totals.Scale(1.0 / 7.0)) else None
  }

  lemma {:induction false} ResolvedInDayConcat(a: seq<Meal>, b: seq<Meal>, rezepte: map<string, Recipe>)
    ensures ResolvedInDay(a + b, rezepte) == ResolvedInDay(a, rezepte) + ResolvedInDay(b, rezepte)
    decreases |b|
  {
    if b == [] {
      assert a + b == a;
    } else {
      var b' := b[..|b| - 1];
      var m := b[|b| - 1];
      var last := if Resolves(m, rezepte) then [m.rezept] else [];
      assert (a + b)[..|a + b| - 1] == a + b' && (a + b)[|a + b| - 1] == m;
      assert ResolvedInDay(a + b, rezepte) == ResolvedInDay(a + b', rezepte) + last;
      ResolvedInDayConcat(a, b', rezepte);
      AppendAssociative(ResolvedInDay(a, rezepte), ResolvedInDay(b', rezepte), last);
    }
  }

  lemma {:induction false} ResolvedRecipesConcat(p: Plan, q: Plan, rezepte: map<string, Recipe>)
    ensures ResolvedRecipes(p + q, rezepte) == ResolvedRecipes(p, rezepte) + ResolvedRecipes(q, rezepte)
    decreases |q|
  {
    if q == [] {
      assert p + q == p;
    } else {
      var q' := q[..|q| - 1];
      var last := ResolvedInDay(q[|q| - 1].meals, rezepte);
      assert (p + q)[..|p + q| - 1] == p + q' && (p + q)[|p + q| - 1] == q[|q| - 1];
      assert ResolvedRecipes(p + q, rezepte) == ResolvedRecipes(p + q', rezepte) + last;
      ResolvedRecipesConcat(p, q', rezepte);
      AppendAssociative(ResolvedRecipes(p, rezepte), ResolvedRecipes(q', rezepte), last);
    }
  }

  lemma {:induction false} TotalOfConcat(a: seq<string>, b: seq<string>, rezepte: map<string, Recipe>, zutaten: map<string, Ingredient>)
    ensures TotalOf(a + b, rezepte, zutaten) == TotalOf(a, rezepte, zutaten).Plus(TotalOf(b, rezepte, zutaten))
    decreases |b|
  {
    if b == [] {
      assert a + b == a;
      ZeroPlus(TotalOf(a, rezepte, zutaten));
    } else {
      var b' := b[..|b| - 1];
      assert (a + b)[..|a + b| - 1] == a + b';
      TotalOfConcat(a, b', rezepte, zutaten);
      PlusAssociative(TotalOf(a, rezepte, zutaten), TotalOf(b', rezepte, zutaten), RecipeTotal(b[|b| - 1], rezepte, zutaten));
    }
  }

  lemma ResolvedRecipesSplit(p: Plan, d: nat, rezepte: map<string, Recipe>)
    requires d < |p|
    ensures ResolvedRecipes(p, rezepte)
            == ResolvedRecipes(p[..d], rezepte) + ResolvedInDay(p[d].meals, rezepte) + ResolvedRecipes(p[d + 1..], rezepte)
  {
    assert p == p[..d] + [p[d]] + p[d + 1..];
    ResolvedRecipesConcat(p[..d] + [p[d]], p[d + 1..], rezepte);
    ResolvedRecipesConcat(p[..d], [p[d]], rezepte);
    assert [p[d]][..0] == [];
  }

  /** Where the resolved names of a day with one more meal come from: the
      names before it, the meal's own (if it resolves), the names after it. */
  lemma InsertMealSplit(p: Plan, d: nat, k: nat, m: Meal, rezepte: map<string, Recipe>)
    returns (pre: seq<string>, mid: seq<string>, post: seq<string>)
    requires d < |p| && k <= |p[d].meals|
    ensures mid == ResolvedInDay([m], rezepte)
    ensures ResolvedRecipes(p, rezepte) == pre + post
    ensures ResolvedRecipes(p[d := Day(p[d].tag, p[d].meals[..k] + [m] + p[d].meals[k..])], rezepte) == pre + mid + post
  {
    var meals := p[d].meals;
    pre := ResolvedRecipes(p[..d], rezepte) + ResolvedInDay(meals[..k], rezepte);
    mid := ResolvedInDay([m], rezepte);
    post := ResolvedInDay(meals[k..], rezepte) + ResolvedRecipes(p[d + 1..], rezepte);
    SplitBefore(p, d, k, rezepte);
    SplitAfter(p, d, k, m, rezepte);
  }

  lemma SplitBefore(p: Plan, d: nat, k: nat, rezepte: map<string, Recipe>)
    requires d < |p| && k <= |p[d].meals|
    ensures ResolvedRecipes(p, rezepte)
            == (ResolvedRecipes(p[..d], rezepte) + ResolvedInDay(p[d].meals[..k], rezepte))
               + (ResolvedInDay(p[d].meals[k..], rezepte) + ResolvedRecipes(p[d + 1..], rezepte))
  {
    var meals := p[d].meals;
    var a, b := ResolvedRecipes(p[..d], rezepte), ResolvedRecipes(p[d + 1..], rezepte);
    var x, z := ResolvedInDay(meals[..k], rezepte), ResolvedInDay(meals[k..], rezepte);
    ResolvedRecipesSplit(p, d, rezepte);
    DaySplit(meals, k, rezepte);
    RegroupPair(a, x, z, b);
  }

  lemma SplitAfter(p: Plan, d: nat, k: nat, m: Meal, rezepte: map<string, Recipe>)
    requires d < |p| && k <= |p[d].meals|
    ensures ResolvedRecipes(p[d := Day(p[d].tag, p[d].meals[..k] + [m] + p[d].meals[k..])], rezepte)
            == (ResolvedRecipes(p[..d], rezepte) + ResolvedInDay(p[d].meals[..k], rezepte))
               + ResolvedInDay([m], rezepte)
               + (ResolvedInDay(p[d].meals[k..], rezepte) + ResolvedRecipes(p[d + 1..], rezepte))
  {
    var meals := p[d].meals;
    var q := p[d := Day(p[d].tag, meals[..k] + [m] + meals[k..])];
    var a, b := ResolvedRecipes(p[..d], rezepte), ResolvedRecipes(p[d + 1..], rezepte);
    var x, y, z := ResolvedInDay(meals[..k], rezepte), ResolvedInDay([m], rezepte), ResolvedInDay(meals[k..], rezepte);
    ResolvedRecipesSplit(q, d, rezepte);
    assert q[..d] == p[..d] && q[d + 1..] == p[d + 1..];
    assert q[d].meals == meals[..k] + [m] + meals[k..];
    DayInsertSplit(meals, k, m, rezepte);
    Regroup(a, x, y, z, b);
  }

  lemma RegroupPair(a: seq<string>, x: seq<string>, z: seq<string>, b: seq<string>)
    ensures a + (x + z) + b == (a + x) + (z + b)
  {
  }

  lemma Regroup(a: seq<string>, x: seq<string>, y: seq<string>, z: seq<string>, b: seq<string>)
    ensures a + (x + y + z) + b == (a + x) + y + (z + b)
  {
  }

  lemma DaySplit(meals: seq<Meal>, k: nat, rezepte: map<string, Recipe>)
    requires k <= |meals|
    ensures ResolvedInDay(meals, rezepte) == ResolvedInDay(meals[..k], rezepte) + ResolvedInDay(meals[k..], rezepte)
  {
    assert meals == meals[..k] + meals[k..];
    ResolvedInDayConcat(meals[..k], meals[k..], rezepte);
  }

  lemma DayInsertSplit(meals: seq<Meal>, k: nat, m: Meal, rezepte: map<string, Recipe>)
    requires k <= |meals|
    ensures ResolvedInDay(meals[..k] + [m] + meals[k..], rezepte)
            == ResolvedInDay(meals[..k], rezepte) + ResolvedInDay([m], rezepte) + ResolvedInDay(meals[k..], rezepte)
  {
    ResolvedInDayConcat(meals[..k] + [m], meals[k..], rezepte);
    ResolvedInDayConcat(meals[..k], [m], rezepte);
  }

  lemma TotalOfInsert(pre: seq<string>, mid: seq<string>, post: seq<string>, rezepte: map<string, Recipe>, zutaten: map<string, Ingredient>)
    ensures TotalOf(pre + mid + post, rezepte, zutaten)
            == TotalOf(pre + post, rezepte, zutaten).Plus(TotalOf(mid, rezepte, zutaten))
  {
    TotalOfConcat(pre, post, rezepte, zutaten);
    TotalOfConcat(pre + mid, post, rezepte, zutaten);
    TotalOfConcat(pre, mid, rezepte, zutaten);
    var a, b, c := TotalOf(pre, rezepte, zutaten), TotalOf(mid, rezepte, zutaten), TotalOf(post, rezepte, zutaten);
    PlusAssociative(a, b, c);
    PlusCommutative(b, c);
    PlusAssociative(a, c, b);
  }

  /** Scheduling one more meal on day `d`, at any position of its list, adds
      one to the count and that recipe's totals to the week when the meal
      resolves, and changes nothing when it does not: the week counts meal
      occurrences, so a recipe scheduled twice counts twice. */
  lemma ScheduleOneMore(p: Plan, d: nat, k: nat, m: Meal, rezepte: map<string, Recipe>, zutaten: map<string, Ingredient>)
    requires d < |p| && k <= |p[d].meals|
    ensures var q := p[d := Day(p[d].tag, p[d].meals[..k] + [m] + p[d].meals[k..])];
            && (Resolves(m, rezepte) ==> MealCount(q, rezepte) == MealCount(p, rezepte) + 1
                                         && WeeklyTotals(q, rezepte, zutaten)
                                            == WeeklyTotals(p, rezepte, zutaten).Plus(Total(rezepte[m.rezept], zutaten)))
            && (!Resolves(m, rezepte) ==> MealCount(q, rezepte) == MealCount(p, rezepte)
                                          && WeeklyTotals(q, rezepte, zutaten) == WeeklyTotals(p, rezepte, zutaten))
  {
    var pre, mid, post := InsertMealSplit(p, d, k, m, rezepte);
    TotalOfInsert(pre, mid, post, rezepte, zutaten);
    assert [m][..0] == [];
    if Resolves(m, rezepte) {
      assert mid == [m.rezept];
      ZeroPlus(Total(rezepte[m.rezept], zutaten));
    } else {
      assert mid == [];
      ZeroPlus(TotalOf(pre + post, rezepte, zutaten));
    }
  }

  predicate NoneResolve(p: Plan, rezepte: map<string, Recipe>) {
    forall i, j :: 0 <= i < |p| && 0 <= j < |p[i].meals| ==> !Resolves(p[i].meals[j], rezepte)
  }

  predicate NoneResolveInDay(meals: seq<Meal>, rezepte: map<string, Recipe>) {
    forall j :: 0 <= j < |meals| ==> !Resolves(meals[j], rezepte)
  }

  /** The count is zero exactly when no meal of the week resolves; then the
      totals are zero and no average is shown. */
  lemma {:induction false} NothingResolves(p: Plan, rezepte: map<string, Recipe>, zutaten: map<string, Ingredient>)
    ensures MealCount(p, rezepte) == 0 <==> NoneResolve(p, rezepte)
    ensures MealCount(p, rezepte) == 0
            ==> WeeklyTotals(p, rezepte, zutaten) == Zero && DailyAverage(WeeklyTotals(p, rezepte, zutaten), 0) == None
    decreases |p|
  {
    if p != [] {
      var d := |p| - 1;
      NothingResolves(p[..d], rezepte, zutaten);
      NothingResolvesInDay(p[d].meals, rezepte);
      NoneResolveSplit(p, rezepte);
    }
  }

  lemma NoneResolveSplit(p: Plan, rezepte: map<string, Recipe>)
    requires p != []
    ensures NoneResolve(p, rezepte) <==> NoneResolve(p[..|p| - 1], rezepte) && NoneResolveInDay(p[|p| - 1].meals, rezepte)
  {
    var d := |p| - 1;
    assert forall i :: 0 <= i < d ==> p[..d][i] == p[i];
  }

  lemma {:induction false} NothingResolvesInDay(meals: seq<Meal>, rezepte: map<string, Recipe>)
    ensures ResolvedInDay(meals, rezepte) == [] <==> NoneResolveInDay(meals, rezepte)
    decreases |meals|
  {
    if meals != [] {
      var k := |meals| - 1;
      NothingResolvesInDay(meals[..k], rezepte);
      assert forall j :: 0 <= j < k ==> meals[..k][j] == meals[j];
    }
  }

  /** The week depends on the recipes' ingredient quantities, never on their
      serving counts. */
  lemma {:induction false} WeeklyIgnoresPortionen(p: Plan, rezepte: map<string, Recipe>, rezepte2: map<string, Recipe>, zutaten: map<string, Ingredient>)
    requires rezepte.Keys == rezepte2.Keys
    requires forall n :: n in rezepte ==> rezepte[n].zutaten == rezepte2[n].zutaten
    ensures MealCount(p, rezepte) == MealCount(p, rezepte2)
    ensures WeeklyTotals(p, rezepte, zutaten) == WeeklyTotals(p, rezepte2, zutaten)
  {
    SameResolved(p, rezepte, rezepte2);
    SameTotalOf(ResolvedRecipes(p, rezepte), rezepte, rezepte2, zutaten);
  }

  lemma {:induction false} SameResolved(p: Plan, rezepte: map<string, Recipe>, rezepte2: map<string, Recipe>)
    requires rezepte.Keys == rezepte2.Keys
    ensures ResolvedRecipes(p, rezepte) == ResolvedRecipes(p, rezepte2)
    decreases |p|
  {
    if p != [] {
      SameResolved(p[..|p| - 1], rezepte, rezepte2);
      SameResolvedInDay(p[|p| - 1].meals, rezepte, rezepte2);
    }
  }

  lemma {:induction false} SameResolvedInDay(meals: seq<Meal>, rezepte: map<string, Recipe>, rezepte2: map<string, Recipe>)
    requires rezepte.Keys == rezepte2.Keys
    ensures ResolvedInDay(meals, rezepte) == ResolvedInDay(meals, rezepte2)
    decreases |meals|
  {
    if meals != [] {
      SameResolvedInDay(meals[..|meals| - 1], rezepte, rezepte2);
    }
  }

  lemma {:induction false} SameTotalOf(names: seq<string>, rezepte: map<string, Recipe>, rezepte2: map<string, Recipe>, zutaten: map<string, Ingredient>)
    requires rezepte.Keys == rezepte2.Keys
    requires forall n :: n in rezepte ==> rezepte[n].zutaten == rezepte2[n].zutaten
    requires forall n :: n in names ==> n in rezepte
    ensures TotalOf(names, rezepte, zutaten) == TotalOf(names, rezepte2, zutaten)
    decreases |names|
  {
    if names != [] {
      SameTotalOf(names[..|names| - 1], rezepte, rezepte2, zutaten);
    }
  }
}
