/** The document as the running program holds it in its session state, with
    the operations of its tabs that change it: adding and deleting
    ingredients (meal_planner.py:214-225, :433-443), the recipe draft and
    saving it (:481-530), deleting recipes (:584-598), the plan tab's sort,
    delete, add and clear buttons (:623-745) and the CSV import's row loop
    (:334-384). Every operation that succeeds also saves the document; the
    saving is not part of the model. */
module Session {
  import opened Model
  import opened MealOrder
  import opened CsvImport
  import RecipeNutrition
  import Weekly
  import Shopping

  /** What a button press reports. */
  datatype Outcome =
    | Done
    | Ignored                                      // the button does nothing
    | AlreadyExists                                // "existiert bereits" / "ist bereits in der Liste"
    | UsedInRecipes(recipes: set<string>)          // the ingredient is still used
    | UsedInPlan(slots: seq<(string, string)>)     // the recipe is still scheduled: (day, time) pairs
    | NoName                                       // "Bitte gib einen Rezeptnamen ein!"
    | NoIngredients                                // "Bitte füge mindestens eine Zutat hinzu!"
    | NoTime                                       // "Bitte wähle eine Uhrzeit!"
    | NoRecipe                                     // "Bitte wähle ein Rezept!"

  /** No ingredient appears twice in the recipe draft. */
  predicate DraftDistinct(draft: seq<(string, real)>) {
    forall i, j :: 0 <= i < j < |draft| ==> draft[i].0 != draft[j].0
  }

  /** `{z: m for z, m in temp_zutaten}`: a later pair overrides an earlier
      one with the same name. */
  function DraftMap(draft: seq<(string, real)>): (r: map<string, real>)
    ensures forall z :: z in r <==> exists i :: 0 <= i < |draft| && draft[i].0 == z
  {
    if draft == [] then map[]
    else
      var n := |draft| - 1;
      var r := DraftMap(draft[..n])[draft[n].0 := draft[n].1];
      assert forall i :: 0 <= i < n ==> draft[..n][i] == draft[i];
      r
  }

  /** For a draft without repetitions, the saved recipe holds exactly the
      draft's quantities. */
  lemma {:induction false} DraftMapOfDistinct(draft: seq<(string, real)>, i: nat)
    requires DraftDistinct(draft) && i < |draft|
    ensures DraftMap(draft)[draft[i].0] == draft[i].1
  {
    var n := |draft| - 1;
    if i < n {
      assert draft[..n][i] == draft[i];
      DraftMapOfDistinct(draft[..n], i);
    }
  }

  /** The meals `name` is scheduled for in one day, as (day, time) pairs in
      list order: the inner loop of the check before deleting a recipe. */
  function SlotsInDay(tag: string, meals: seq<Meal>, name: string): seq<(string, string)> {
    if meals == [] then []
    else
      var m := meals[|meals| - 1];
      SlotsInDay(tag, meals[..|meals| - 1], name) + (if m.rezept == name then [(tag, m.zeit)] else [])
  }

  /** All meals of the week scheduled for `name`, day by day in plan order. */
  function SlotsInPlan(p: Plan, name: string): seq<(string, string)> {
    if p == [] then []
    else SlotsInPlan(p[..|p| - 1], name) + SlotsInDay(p[|p| - 1].tag, p[|p| - 1].meals, name)
  }

  lemma SlotsInDayStep(tag: string, meals: seq<Meal>, j: nat, name: string)
    requires j < |meals|
    ensures meals[j].rezept == name ==> SlotsInDay(tag, meals[..j + 1], name) == SlotsInDay(tag, meals[..j], name) + [(tag, meals[j].zeit)]
    ensures meals[j].rezept != name ==> SlotsInDay(tag, meals[..j + 1], name) == SlotsInDay(tag, meals[..j], name)
  {
    assert meals[..j + 1][..j] == meals[..j];
    assert SlotsInDay(tag, meals[..j], name) + [] == SlotsInDay(tag, meals[..j], name);
  }

  lemma SlotsInPlanStep(p: Plan, i: nat, name: string)
    requires i < |p|
    ensures SlotsInPlan(p[..i + 1], name) == SlotsInPlan(p[..i], name) + SlotsInDay(p[i].tag, p[i].meals, name)
  {
    assert p[..i + 1][..i] == p[..i];
  }

  /** A pair is reported for a day exactly when one of its meals at that
      time refers to the recipe. */
  lemma {:induction false} SlotsInDayMeaning(tag: string, meals: seq<Meal>, name: string, u: (string, string))
    ensures u in SlotsInDay(tag, meals, name)
            <==> (u.0 == tag && exists j :: 0 <= j < |meals| && meals[j].rezept == name && meals[j].zeit == u.1)
    decreases |meals|
  {
    if meals != [] {
      var k := |meals| - 1;
      SlotsInDayMeaning(tag, meals[..k], name, u);
      assert forall j :: 0 <= j < k ==> meals[..k][j] == meals[j];
      if u.0 == tag && meals[k].rezept == name && meals[k].zeit == u.1 {
        assert u in SlotsInDay(tag, meals, name);
      }
    }
  }

  /** A pair is reported exactly when some day of that name has a meal at
      that time referring to the recipe. */
  lemma {:induction false} SlotsInPlanMeaning(p: Plan, name: string, u: (string, string))
    ensures u in SlotsInPlan(p, name)
            <==> exists i, j :: 0 <= i < |p| && 0 <= j < |p[i].meals| && p[i].tag == u.0
                                && p[i].meals[j].rezept == name && p[i].meals[j].zeit == u.1
    decreases |p|
  {
    if p != [] {
      var d := |p| - 1;
      SlotsInPlanMeaning(p[..d], name, u);
      SlotsInDayMeaning(p[d].tag, p[d].meals, name, u);
      assert forall i :: 0 <= i < d ==> p[..d][i] == p[i];
    }
  }

  /** The check finds something exactly when the recipe is scheduled. */
  lemma RefusedIffScheduled(p: Plan, name: string)
    ensures SlotsInPlan(p, name) != [] <==> IsScheduled(p, name)
  {
    if IsScheduled(p, name) {
      var i, j :| 0 <= i < |p| && 0 <= j < |p[i].meals| && p[i].meals[j].rezept == name;
      SlotsInPlanMeaning(p, name, (p[i].tag, p[i].meals[j].zeit));
    } else if SlotsInPlan(p, name) != [] {
      SlotsInPlanMeaning(p, name, SlotsInPlan(p, name)[0]);
    }
  }

  /** `wochenplan` after "Ganze Woche leeren": every day kept, every list
      emptied. */
  function ClearedWeek(p: Plan): (r: Plan)
    ensures Tags(r) == Tags(p)
    ensures forall i :: 0 <= i < |r| ==> r[i].meals == []
  {
    var r := seq(|p|, i requires 0 <= i < |p| => Day(p[i].tag, []));
    assert Tags(r) == Tags(p);
    r
  }

  /** An emptied week has no meal to count, nothing to add up and nothing to
      buy. */
  lemma ClearedWeekIsEmpty(p: Plan, rezepte: map<string, Recipe>, zutaten: map<string, Ingredient>)
    ensures Weekly.MealCount(ClearedWeek(p), rezepte) == 0
    ensures Weekly.WeeklyTotals(ClearedWeek(p), rezepte, zutaten) == Zero
    ensures Shopping.ShoppingList(ClearedWeek(p), rezepte) == map[]
  {
    var q := ClearedWeek(p);
    assert Weekly.NoneResolve(q, rezepte);
    Weekly.NothingResolves(q, rezepte, zutaten);
    Shopping.EmptyPlanEmptyList(q, rezepte);
  }

  /** Deleting an ingredient no recipe uses changes no recipe's nutrition. */
  lemma UnusedIngredientChangesNoTotal(rezepte: map<string, Recipe>, zutaten: map<string, Ingredient>, name: string)
    requires forall r :: r in rezepte ==> name !in rezepte[r].zutaten
    ensures forall r :: r in rezepte ==> RecipeNutrition.Total(rezepte[r], zutaten - {name}) == RecipeNutrition.Total(rezepte[r], zutaten)
  {
    forall r | r in rezepte
      ensures RecipeNutrition.Total(rezepte[r], zutaten - {name}) == RecipeNutrition.Total(rezepte[r], zutaten)
    {
      var z := rezepte[r].zutaten;
      RecipeNutrition.SumOverAgree(z.Keys, z, zutaten - {name}, z, zutaten);
    }
  }

  /** Replacing one day's list by meals that all refer to existing recipes
      keeps every meal of the plan referring to an existing recipe. */
  lemma SetDayResolves(p: Plan, tag: string, meals: seq<Meal>, rezepte: map<string, Recipe>)
    requires MealsResolve(p, rezepte)
    requires forall j :: 0 <= j < |meals| ==> meals[j].rezept in rezepte
    ensures MealsResolve(SetDay(p, tag, meals), rezepte)
  {
    var r := SetDay(p, tag, meals);
    if HasDay(p, tag) {
      assert r == p[IndexOf(p, tag) := Day(tag, meals)];
    } else {
      assert r == p + [Day(tag, meals)];
    }
  }

  /** Adding a meal of an existing recipe to a day whose meals all refer
      to existing recipes, and sorting, keeps that so. */
  lemma SortedResolves(meals: seq<Meal>, m: Meal, rezepte: map<string, Recipe>)
    requires forall j :: 0 <= j < |meals| ==> meals[j].rezept in rezepte
    requires m.rezept in rezepte
    ensures forall k :: 0 <= k < |SortByZeit(meals + [m])| ==> SortByZeit(meals + [m])[k].rezept in rezepte
  {
    var appended := meals + [m];
    var sorted := SortByZeit(appended);
    SortByZeitSorts(appended);
    forall k | 0 <= k < |sorted|
      ensures sorted[k].rezept in rezepte
    {
      assert sorted[k] in multiset(appended);
      var j :| 0 <= j < |appended| && appended[j] == sorted[k];
      if j < |meals| {
        assert appended[j] == meals[j];
      }
    }
  }

  /** Popping position `idx` removes exactly that meal, keeps a sorted list
      sorted, and keeps only meals that were there. */
  lemma PopMeal(s: seq<Meal>, idx: nat, rest: seq<Meal>, rezepte: map<string, Recipe>)
    requires idx < |s| && rest == s[..idx] + s[idx + 1..]
    ensures multiset(rest) + multiset{s[idx]} == multiset(s)
    ensures SortedByZeit(s) ==> SortedByZeit(rest)
    ensures (forall j :: 0 <= j < |s| ==> s[j].rezept in rezepte)
            ==> forall k :: 0 <= k < |rest| ==> rest[k].rezept in rezepte
  {
    assert s == s[..idx] + [s[idx]] + s[idx + 1..];
    assert forall k :: 0 <= k < idx ==> rest[k] == s[k];
    assert forall k :: idx <= k < |rest| ==> rest[k] == s[k + 1];
  }

  class Session {
    var zutaten: map<string, Ingredient>
    var rezepte: map<string, Recipe>
    var wochenplan: Plan
    /** `st.session_state.temp_zutaten`: the ingredient lines of the recipe
        being composed. */
    var tempZutaten: seq<(string, real)>

    /** The plan's days are distinct keys and include the seven weekdays;
        the draft never holds an ingredient twice and only positive
        quantities. */
    predicate Valid()
      reads this
    {
      DistinctTags(wochenplan) && HasWeekdays(wochenplan) && DraftDistinct(tempZutaten)
      && forall i :: 0 <= i < |tempZutaten| ==> tempZutaten[i].1 > 0.0
    }

    /** A session over a loaded document, with an empty draft. */
    constructor (z: map<string, Ingredient>, r: map<string, Recipe>, p: Plan)
      requires DistinctTags(p) && HasWeekdays(p)
      ensures Valid()
      ensures zutaten == z && rezepte == r && wochenplan == p && tempZutaten == []
    {
      zutaten, rezepte, wochenplan, tempZutaten := z, r, p, [];
    }

    /** "Zutat hinzufügen" (:214-225): an empty name does nothing, a taken
        name is refused, otherwise the ingredient is stored with its values
        and category. */
    method AddIngredient(name: string, values: Nutrition, kategorie: string) returns (o: Outcome)
      requires Valid()
      modifies this
      ensures Valid()
      ensures name == "" ==> o == Ignored
      ensures name != "" && name in old(zutaten) ==> o == AlreadyExists
      ensures o == Done <==> name != "" && name !in old(zutaten)
      ensures o == Done ==> zutaten == old(zutaten)[name := Ingredient(values.protein, values.kohlenhydrate, values.fett, values.kalorien, Some(kategorie))]
      ensures o != Done ==> zutaten == old(zutaten)
      ensures rezepte == old(rezepte) && wochenplan == old(wochenplan) && tempZutaten == old(tempZutaten)
      ensures IngredientsResolve(old(zutaten), rezepte) ==> IngredientsResolve(zutaten, rezepte)
    {
      if name == "" {
        return Ignored;
      }
      if name in zutaten {
        return AlreadyExists;
      }
      zutaten := zutaten[name := Ingredient(values.protein, values.kohlenhydrate, values.fett, values.kalorien, Some(kategorie))];
      o := Done;
    }

    /** "Löschen" of an ingredient (:433-443): refused, naming the recipes,
        while some recipe uses it; removed otherwise. */
    method DeleteIngredient(name: string) returns (o: Outcome)
      requires Valid() && name in zutaten
      modifies this
      ensures Valid()
      ensures o.UsedInRecipes? <==> exists r :: r in rezepte && name in rezepte[r].zutaten
      ensures o.UsedInRecipes? ==> forall r :: r in o.recipes <==> r in rezepte && name in rezepte[r].zutaten
      ensures o.UsedInRecipes? ==> zutaten == old(zutaten)
      ensures !o.UsedInRecipes? ==> o == Done && zutaten == old(zutaten) - {name}
      ensures rezepte == old(rezepte) && wochenplan == old(wochenplan) && tempZutaten == old(tempZutaten)
      ensures IngredientsResolve(old(zutaten), rezepte) ==> IngredientsResolve(zutaten, rezepte)
    {
      var usedIn := set r | r in rezepte && name in rezepte[r].zutaten;
      assert forall r :: r in rezepte && name in rezepte[r].zutaten ==> r in usedIn;
      if usedIn != {} {
        return UsedInRecipes(usedIn);
      }
      zutaten := zutaten - {name};
      o := Done;
    }

    /** "Hinzufügen" in the recipe form (:481-489): nothing without a
        selected ingredient and a positive quantity; a warning when the
        ingredient is already in the draft; appended otherwise. */
    method AddDraftItem(selected: string, menge: real) returns (o: Outcome)
      requires Valid()
      modifies this
      ensures Valid()
      ensures selected == "" || menge <= 0.0 ==> o == Ignored
      ensures o == AlreadyExists <==> selected != "" && menge > 0.0 && exists i :: 0 <= i < |old(tempZutaten)| && old(tempZutaten)[i].0 == selected
      ensures o == Done <==> selected != "" && menge > 0.0 && forall i :: 0 <= i < |old(tempZutaten)| ==> old(tempZutaten)[i].0 != selected
      ensures o == Done ==> tempZutaten == old(tempZutaten) + [(selected, menge)]
      ensures o != Done ==> tempZutaten == old(tempZutaten)
      ensures o == Ignored || o == AlreadyExists || o == Done
      ensures zutaten == old(zutaten) && rezepte == old(rezepte) && wochenplan == old(wochenplan)
    {
      if selected == "" || menge <= 0.0 {
        return Ignored;
      }
      var k := 0;
      while k < |tempZutaten| && tempZutaten[k].0 != selected
        invariant 0 <= k <= |tempZutaten|
        invariant forall i :: 0 <= i < k ==> tempZutaten[i].0 != selected
      {
        k := k + 1;
      }
      if k < |tempZutaten| {
        return AlreadyExists;
      }
      tempZutaten := tempZutaten + [(selected, menge)];
      o := Done;
    }

    /** "❌" next to a draft line (:499-500): that line is removed. */
    method RemoveDraftItem(idx: nat)
      requires Valid() && idx < |tempZutaten|
      modifies this
      ensures Valid()
      ensures tempZutaten == old(tempZutaten)[..idx] + old(tempZutaten)[idx + 1..]
      ensures zutaten == old(zutaten) && rezepte == old(rezepte) && wochenplan == old(wochenplan)
    {
      tempZutaten := tempZutaten[..idx] + tempZutaten[idx + 1..];
    }

    /** "Zurücksetzen" (:523-525): the draft is emptied. */
    method ResetDraft()
      requires Valid()
      modifies this
      ensures Valid()
      ensures tempZutaten == []
      ensures zutaten == old(zutaten) && rezepte == old(rezepte) && wochenplan == old(wochenplan)
    {
      tempZutaten := [];
    }

    /** "Rezept speichern" (:506-521): refused without a name, without
        ingredient lines, or when the name is taken, in that order;
        otherwise the draft becomes the recipe and is emptied. */
    method SaveRecipe(name: string, portionen: int) returns (o: Outcome)
      requires Valid()
      modifies this
      ensures Valid()
      ensures name == "" ==> o == NoName
      ensures name != "" && old(tempZutaten) == [] ==> o == NoIngredients
      ensures name != "" && old(tempZutaten) != [] && name in old(rezepte) ==> o == AlreadyExists
      ensures o == Done <==> name != "" && old(tempZutaten) != [] && name !in old(rezepte)
      ensures o == Done ==> rezepte == old(rezepte)[name := Recipe(DraftMap(old(tempZutaten)), portionen)] && tempZutaten == []
      ensures o == Done ==> forall i :: 0 <= i < |old(tempZutaten)| ==> rezepte[name].zutaten[old(tempZutaten)[i].0] == old(tempZutaten)[i].1
      ensures o != Done ==> rezepte == old(rezepte) && tempZutaten == old(tempZutaten)
      ensures zutaten == old(zutaten) && wochenplan == old(wochenplan)
      ensures IngredientsResolve(zutaten, old(rezepte)) && (forall i :: 0 <= i < |old(tempZutaten)| ==> old(tempZutaten)[i].0 in zutaten)
              ==> IngredientsResolve(zutaten, rezepte)
      ensures MealsResolve(wochenplan, old(rezepte)) ==> MealsResolve(wochenplan, rezepte)
    {
      if name == "" {
        return NoName;
      }
      if tempZutaten == [] {
        return NoIngredients;
      }
      if name in rezepte {
        return AlreadyExists;
      }
      forall i | 0 <= i < |tempZutaten|
        ensures DraftMap(tempZutaten)[tempZutaten[i].0] == tempZutaten[i].1
      {
        DraftMapOfDistinct(tempZutaten, i);
      }
      rezepte := rezepte[name := Recipe(DraftMap(tempZutaten), portionen)];
      tempZutaten := [];
      o := Done;
    }

    /** The meals that refer to recipe `name`, as "day (time)" pairs: the
        two nested loops of the check before deleting a recipe (:586-590). */
    method PlanSlots(name: string) returns (slots: seq<(string, string)>)
      ensures slots == SlotsInPlan(wochenplan, name)
    {
      slots := [];
      var i := 0;
      while i < |wochenplan|
        invariant 0 <= i <= |wochenplan|
        invariant slots == SlotsInPlan(wochenplan[..i], name)
      {
        var tag, mahlzeiten := wochenplan[i].tag, wochenplan[i].meals;
        ghost var before := slots;
        var j := 0;
        while j < |mahlzeiten|
          invariant 0 <= j <= |mahlzeiten|
          invariant slots == before + SlotsInDay(tag, mahlzeiten[..j], name)
        {
          SlotsInDayStep(tag, mahlzeiten, j, name);
          if mahlzeiten[j].rezept == name {
            AppendAssociative(before, SlotsInDay(tag, mahlzeiten[..j], name), [(tag, mahlzeiten[j].zeit)]);
            slots := slots + [(tag, mahlzeiten[j].zeit)];
          }
          j := j + 1;
        }
        assert mahlzeiten[..j] == mahlzeiten;
        SlotsInPlanStep(wochenplan, i, name);
        i := i + 1;
      }
      assert wochenplan[..i] == wochenplan;
    }

    /** "Rezept löschen" (:584-598): refused, naming the slots, while the
        recipe is scheduled; removed otherwise. */
    method DeleteRecipe(name: string) returns (o: Outcome)
      requires Valid() && name in rezepte
      modifies this
      ensures Valid()
      ensures o.UsedInPlan? <==> IsScheduled(wochenplan, name)
      ensures o.UsedInPlan? ==> o.slots == SlotsInPlan(wochenplan, name) && rezepte == old(rezepte)
      ensures !o.UsedInPlan? ==> o == Done && rezepte == old(rezepte) - {name}
      ensures zutaten == old(zutaten) && wochenplan == old(wochenplan) && tempZutaten == old(tempZutaten)
      ensures MealsResolve(wochenplan, old(rezepte)) ==> MealsResolve(wochenplan, rezepte)
      ensures IngredientsResolve(zutaten, old(rezepte)) ==> IngredientsResolve(zutaten, rezepte)
    {
      var usedInPlan := PlanSlots(name);
      RefusedIffScheduled(wochenplan, name);
      if usedInPlan != [] {
        return UsedInPlan(usedInPlan);
      }
      rezepte := rezepte - {name};
      o := Done;
    }

    /** Showing the day picked in the selector, which offers the seven
        weekdays (:610-624): `mahlzeiten.sort(...)` sorts the stored
        list itself, so the day stays sorted by time afterwards; the list
        shown is that sorted list. */
    method ShowDay(tag: string) returns (mahlzeiten: seq<Meal>)
      requires Valid() && tag in Weekdays
      modifies this
      ensures Valid()
      ensures mahlzeiten == SortByZeit(old(MealsOf(wochenplan, tag)))
      ensures wochenplan == SetDay(old(wochenplan), tag, mahlzeiten) && Tags(wochenplan) == Tags(old(wochenplan))
      ensures SortedByZeit(mahlzeiten) && multiset(mahlzeiten) == multiset(old(MealsOf(wochenplan, tag)))
      ensures zutaten == old(zutaten) && rezepte == old(rezepte) && tempZutaten == old(tempZutaten)
    {
      mahlzeiten := SortByZeit(MealsOf(wochenplan, tag));
      SortByZeitSorts(MealsOf(wochenplan, tag));
      wochenplan := SetDay(wochenplan, tag, mahlzeiten);
    }

    /** "🗑️" next to the meal at position `idx` of the shown list (:659): it
        is popped from the stored list, which `ShowDay` has just sorted. */
    method RemoveMeal(tag: string, idx: nat)
      requires Valid() && tag in Weekdays && idx < |MealsOf(wochenplan, tag)|
      modifies this
      ensures Valid()
      ensures Tags(wochenplan) == Tags(old(wochenplan)) && HasDay(wochenplan, tag)
      ensures var old_ := old(MealsOf(wochenplan, tag));
              MealsOf(wochenplan, tag) == old_[..idx] + old_[idx + 1..]
              && multiset(MealsOf(wochenplan, tag)) + multiset{old_[idx]} == multiset(old_)
      ensures wochenplan == SetDay(old(wochenplan), tag, MealsOf(wochenplan, tag))
      ensures SortedByZeit(old(MealsOf(wochenplan, tag))) ==> SortedByZeit(MealsOf(wochenplan, tag))
      ensures MealsResolve(old(wochenplan), rezepte) ==> MealsResolve(wochenplan, rezepte)
      ensures zutaten == old(zutaten) && rezepte == old(rezepte) && tempZutaten == old(tempZutaten)
    {
      var mahlzeiten := MealsOf(wochenplan, tag);
      var rest := mahlzeiten[..idx] + mahlzeiten[idx + 1..];
      PopMeal(mahlzeiten, idx, rest, rezepte);
      if MealsResolve(wochenplan, rezepte) {
        assert mahlzeiten == wochenplan[IndexOf(wochenplan, tag)].meals;
        SetDayResolves(wochenplan, tag, rest, rezepte);
      }
      wochenplan := SetDay(wochenplan, tag, rest);
    }

    /** "Hinzufügen" of a meal (:692-708): refused without a time, then
        without a recipe; otherwise the meal is appended with its time
        written "HH:MM" and the day is sorted again. */
    method AddMeal(tag: string, zeit: Option<TimeOfDay>, rezept: string) returns (o: Outcome)
      requires Valid() && tag in Weekdays
      modifies this
      ensures Valid()
      ensures zeit.None? ==> o == NoTime
      ensures zeit.Some? && rezept == "" ==> o == NoRecipe
      ensures o == Done <==> zeit.Some? && rezept != ""
      ensures Tags(wochenplan) == Tags(old(wochenplan)) && HasDay(wochenplan, tag)
      ensures o == Done ==> var m := Meal(FormatZeit(zeit.value), rezept);
                            && MealsOf(wochenplan, tag) == SortByZeit(old(MealsOf(wochenplan, tag)) + [m])
                            && SortedByZeit(MealsOf(wochenplan, tag))
                            && multiset(MealsOf(wochenplan, tag)) == multiset(old(MealsOf(wochenplan, tag))) + multiset{m}
      ensures o == Done ==> wochenplan == SetDay(old(wochenplan), tag, MealsOf(wochenplan, tag))
      ensures o != Done ==> wochenplan == old(wochenplan)
      ensures MealsResolve(old(wochenplan), rezepte) && rezept in rezepte ==> MealsResolve(wochenplan, rezepte)
      ensures zutaten == old(zutaten) && rezepte == old(rezepte) && tempZutaten == old(tempZutaten)
    {
      if zeit.None? {
        return NoTime;
      }
      if rezept == "" {
        return NoRecipe;
      }
      var m := Meal(FormatZeit(zeit.value), rezept);
      var appended := MealsOf(wochenplan, tag) + [m];
      var sorted := SortByZeit(appended);
      SortByZeitSorts(appended);
      if MealsResolve(wochenplan, rezepte) && rezept in rezepte {
        assert MealsOf(wochenplan, tag) == wochenplan[IndexOf(wochenplan, tag)].meals;
        SortedResolves(MealsOf(wochenplan, tag), m, rezepte);
        SetDayResolves(wochenplan, tag, sorted, rezepte);
      }
      wochenplan := SetDay(wochenplan, tag, sorted);
      o := Done;
    }

    /** "<Tag> leeren" (:737): the day's list becomes empty; assigning the
        key creates the day if the plan lacks it. */
    method ClearDay(tag: string)
      requires Valid()
      modifies this
      ensures Valid()
      ensures wochenplan == SetDay(old(wochenplan), tag, [])
      ensures HasDay(wochenplan, tag) && MealsOf(wochenplan, tag) == []
      ensures MealsResolve(old(wochenplan), rezepte) ==> MealsResolve(wochenplan, rezepte)
      ensures zutaten == old(zutaten) && rezepte == old(rezepte) && tempZutaten == old(tempZutaten)
    {
      if MealsResolve(wochenplan, rezepte) {
        SetDayResolves(wochenplan, tag, [], rezepte);
      }
      wochenplan := SetDay(wochenplan, tag, []);
    }

    /** "Ganze Woche leeren" (:744-745): every day of the plan, in order,
        gets an empty list. */
    method ClearWeek()
      requires Valid()
      modifies this
      ensures Valid()
      ensures wochenplan == ClearedWeek(old(wochenplan))
      ensures zutaten == old(zutaten) && rezepte == old(rezepte) && tempZutaten == old(tempZutaten)
    {
      var i := 0;
      while i < |wochenplan|
        invariant 0 <= i <= |wochenplan| == |old(wochenplan)|
        invariant forall k :: 0 <= k < |wochenplan| ==> wochenplan[k].tag == old(wochenplan)[k].tag
        invariant forall k :: 0 <= k < i ==> wochenplan[k].meals == []
        invariant forall k :: i <= k < |wochenplan| ==> wochenplan[k] == old(wochenplan)[k]
        invariant zutaten == old(zutaten) && rezepte == old(rezepte) && tempZutaten == old(tempZutaten)
      {
        wochenplan := wochenplan[i := Day(wochenplan[i].tag, [])];
        i := i + 1;
      }
      assert Tags(wochenplan) == Tags(old(wochenplan));
      SameTagsSameDays(old(wochenplan), wochenplan);
    }

    /** "Zutaten importieren" (:334-384): the names taken before the import
        are fixed first, a file without a Kategorie column gets
        "Sonstiges", and the rows are imported one by one. */
    method ImportCsv(rows: seq<CsvRow>, chosen: DuplicateAction, default: string)
      returns (imported: nat, skipped: nat, errors: seq<int>)
      requires Valid()
      modifies this
      ensures Valid()
      ensures var table := AddDefaultKategorie(rows);
              ImportResult(zutaten, imported, skipped, errors)
              == ImportRows(old(zutaten), old(zutaten).Keys, table,
                            EffectiveAction(old(zutaten).Keys, table, chosen), default)
      ensures old(zutaten).Keys <= zutaten.Keys
      ensures IngredientsResolve(old(zutaten), rezepte) ==> IngredientsResolve(zutaten, rezepte)
      ensures rezepte == old(rezepte) && wochenplan == old(wochenplan) && tempZutaten == old(tempZutaten)
    {
      var existingNames := zutaten.Keys;
      var table := AddDefaultKategorie(rows);
      var action := EffectiveAction(existingNames, table, chosen);
      ghost var outcomes := Outcomes(table, existingNames, action, default);
      imported, skipped, errors := 0, 0, [];
      var i := 0;
      while i < |table|
        invariant 0 <= i <= |table|
        invariant ImportResult(zutaten, imported, skipped, errors) == RecordAll(old(zutaten), outcomes[..i])
        invariant old(zutaten).Keys <= zutaten.Keys
        invariant rezepte == old(rezepte) && wochenplan == old(wochenplan) && tempZutaten == old(tempZutaten)
      {
        var o := ImportRow(table[i], existingNames, action, default);
        RecordAllPrefix(old(zutaten), outcomes, i);
        match o {
          case Skipped => skipped := skipped + 1;
          case Failed => errors := errors + [i + 2];
          case Imported(name, zutat) =>
            zutaten := zutaten[name := zutat];
            imported := imported + 1;
        }
        i := i + 1;
      }
      assert outcomes[..i] == outcomes;
    }
  }
}
