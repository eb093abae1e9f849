/** `calculate_recipe_nutrition` (meal_planner.py:75-88): the total protein,
    carbohydrates, fat and calories of a whole recipe. Each ingredient line
    that names an existing ingredient adds that ingredient's per-100 g values
    scaled by `menge / 100`; a line naming a missing ingredient adds nothing.
    Values are mathematical reals, not IEEE doubles. */
module RecipeNutrition {
  import opened Model

  /** What one ingredient line of `menge` grams of `name` adds. */
  function Contribution(zutaten: map<string, Ingredient>, name: string, menge: real): Nutrition {
    if name in zutaten then zutaten[name].PerHundredGrams().Scale(menge / 100.0) else Zero
  }

  /** Some element of a non-empty set: the order of summation, which does not
      matter (`SumOverPick`). */
  ghost function Pick(keys: set<string>): string
    requires keys != {}
  {
    var k :| k in keys; k
  }

  /** The sum of the contributions of the lines `keys` of the recipe map `z`. */
  ghost function SumOver(keys: set<string>, z: map<string, real>, zutaten: map<string, Ingredient>): Nutrition
    requires keys <= z.Keys
    decreases |keys|
  {
    if keys == {} then Zero
    else
      var k := Pick(keys);
      Contribution(zutaten, k, z[k]).Plus(SumOver(keys - {k}, z, zutaten))
  }

  /** The total of a whole recipe, over all its ingredient lines. */
  ghost function Total(rezept: Recipe, zutaten: map<string, Ingredient>): Nutrition {
    SumOver(rezept.zutaten.Keys, rezept.zutaten, zutaten)
  }

  /** The sum does not depend on the order of the lines: any line can be
      taken out first. */
  lemma {:induction false} SumOverPick(keys: set<string>, z: map<string, real>, zutaten: map<string, Ingredient>, k: string)
    requires keys <= z.Keys && k in keys
    ensures SumOver(keys, z, zutaten) == Contribution(zutaten, k, z[k]).Plus(SumOver(keys - {k}, z, zutaten))
    decreases |keys|
  {
    var j := Pick(keys);
    if j != k {
      SumOverPick(keys - {j}, z, zutaten, k);
      SumOverPick(keys - {k}, z, zutaten, j);
      assert keys - {j} - {k} == keys - {k} - {j};
      var rest := SumOver(keys - {j} - {k}, z, zutaten);
      PlusSwap(Contribution(zutaten, j, z[j]), Contribution(zutaten, k, z[k]), rest);
    }
  }

  lemma PlusSwap(a: Nutrition, b: Nutrition, c: Nutrition)
    ensures a.Plus(b.Plus(c)) == b.Plus(a.Plus(c))
  {
  }

  lemma PlusAssociative(a: Nutrition, b: Nutrition, c: Nutrition)
    ensures a.Plus(b).Plus(c) == a.Plus(b.Plus(c))
  {
  }

  lemma PlusCommutative(a: Nutrition, b: Nutrition)
    ensures a.Plus(b) == b.Plus(a)
  {
  }

  lemma ZeroPlus(a: Nutrition)
    ensures Zero.Plus(a) == a && a.Plus(Zero) == a
  {
  }

  /** `calculate_recipe_nutrition`: four accumulators starting at zero, one
      step per ingredient line. */
  method CalculateRecipeNutrition(rezept: Recipe, zutaten: map<string, Ingredient>) returns (total: Nutrition)
    ensures total == Total(rezept, zutaten)
  {
    total := Zero;
    var remaining := rezept.zutaten.Keys;
    ZeroPlus(Total(rezept, zutaten));
    while remaining != {}
      invariant remaining <= rezept.zutaten.Keys
      invariant total.Plus(SumOver(remaining, rezept.zutaten, zutaten)) == Total(rezept, zutaten)
      decreases |remaining|
    {
      var name :| name in remaining;
      var menge := rezept.zutaten[name];
      ghost var before := total;
      if name in zutaten {
        var zutat := zutaten[name];
        var faktor := menge / 100.0;
        total := Nutrition(total.protein + zutat.protein * faktor,
                           total.kohlenhydrate + zutat.kohlenhydrate * faktor,
                           total.fett + zutat.fett * faktor,
                           total.kalorien + zutat.kalorien * faktor);
      }
      assert total == before.Plus(Contribution(zutaten, name, menge));
      SumOverPick(remaining, rezept.zutaten, zutaten, name);
      PlusAssociative(before, Contribution(zutaten, name, menge), SumOver(remaining - {name}, rezept.zutaten, zutaten));
      remaining := remaining - {name};
    }
  }

  /** Two sums agree when every line contributes the same to both. */
  lemma {:induction false} SumOverAgree(keys: set<string>, z1: map<string, real>, zutaten1: map<string, Ingredient>,
                                        z2: map<string, real>, zutaten2: map<string, Ingredient>)
    requires keys <= z1.Keys && keys <= z2.Keys
    requires forall k :: k in keys ==> Contribution(zutaten1, k, z1[k]) == Contribution(zutaten2, k, z2[k])
    ensures SumOver(keys, z1, zutaten1) == SumOver(keys, z2, zutaten2)
    decreases |keys|
  {
    if keys != {} {
      var k := Pick(keys);
      SumOverAgree(keys - {k}, z1, zutaten1, z2, zutaten2);
    }
  }

  lemma {:induction false} SumOverOfMissing(keys: set<string>, z: map<string, real>, zutaten: map<string, Ingredient>)
    requires keys <= z.Keys
    requires forall k :: k in keys ==> k !in zutaten
    ensures SumOver(keys, z, zutaten) == Zero
    decreases |keys|
  {
    if keys != {} {
      SumOverOfMissing(keys - {Pick(keys)}, z, zutaten);
    }
  }

  /** A recipe none of whose ingredients exists, an empty recipe included,
      adds up to zero. */
  lemma TotalOfMissingIngredients(rezept: Recipe, zutaten: map<string, Ingredient>)
    requires forall n :: n in rezept.zutaten ==> n !in zutaten
    ensures Total(rezept, zutaten) == Zero
  {
    SumOverOfMissing(rezept.zutaten.Keys, rezept.zutaten, zutaten);
  }

  /** Removing an ingredient that the recipe uses from the ingredient table
      changes the total by exactly that ingredient's contribution. */
  lemma TotalWithoutIngredient(rezept: Recipe, zutaten: map<string, Ingredient>, name: string)
    requires name in zutaten && name in rezept.zutaten
    ensures Total(rezept, zutaten)
            == Total(rezept, zutaten - {name}).Plus(Contribution(zutaten, name, rezept.zutaten[name]))
  {
    var keys, z := rezept.zutaten.Keys, rezept.zutaten;
    SumOverPick(keys, z, zutaten, name);
    SumOverPick(keys, z, zutaten - {name}, name);
    SumOverAgree(keys - {name}, z, zutaten, z, zutaten - {name});
    var rest := SumOver(keys - {name}, z, zutaten);
    assert Contribution(zutaten - {name}, name, z[name]) == Zero;
    ZeroPlus(rest);
    PlusCommutative(Contribution(zutaten, name, z[name]), rest);
  }

  /** A line naming a missing ingredient contributes nothing: dropping it
      from the recipe leaves the total as it is. */
  lemma TotalIgnoresMissingIngredient(rezept: Recipe, zutaten: map<string, Ingredient>, name: string)
    requires name in rezept.zutaten && name !in zutaten
    ensures Total(rezept.(zutaten := rezept.zutaten - {name}), zutaten) == Total(rezept, zutaten)
  {
    var keys, z := rezept.zutaten.Keys, rezept.zutaten;
    SumOverPick(keys, z, zutaten, name);
    assert (z - {name}).Keys == keys - {name};
    SumOverAgree(keys - {name}, z, zutaten, z - {name}, zutaten);
  }

  lemma {:induction false} SumOverNonNegative(keys: set<string>, z: map<string, real>, zutaten: map<string, Ingredient>)
    requires keys <= z.Keys
    requires forall k :: k in keys ==> z[k] >= 0.0
    requires forall n :: n in zutaten ==> zutaten[n].PerHundredGrams().NonNegative()
    ensures SumOver(keys, z, zutaten).NonNegative()
    decreases |keys|
  {
    if keys != {} {
      var k := Pick(keys);
      SumOverNonNegative(keys - {k}, z, zutaten);
      if k in zutaten {
        var v, f := zutaten[k].PerHundredGrams(), z[k] / 100.0;
        assert f >= 0.0;
        assert v.protein * f >= 0.0 && v.kohlenhydrate * f >= 0.0 && v.fett * f >= 0.0 && v.kalorien * f >= 0.0;
      }
    }
  }

  /** With non-negative values per 100 g and non-negative quantities, as the
      entry form enforces, the total is non-negative. */
  lemma TotalNonNegative(rezept: Recipe, zutaten: map<string, Ingredient>)
    requires forall n :: n in rezept.zutaten ==> rezept.zutaten[n] >= 0.0
    requires forall n :: n in zutaten ==> zutaten[n].PerHundredGrams().NonNegative()
    ensures Total(rezept, zutaten).NonNegative()
  {
    SumOverNonNegative(rezept.zutaten.Keys, rezept.zutaten, zutaten);
  }

  /** A one-ingredient recipe: 200 g of rice at 7 g protein, 77 g
      carbohydrates, 0.6 g fat and 350 kcal per 100 g. */
  lemma TotalExample()
    ensures Total(Recipe(map["Reis" := 200.0], 1), map["Reis" := Ingredient(7.0, 77.0, 0.6, 350.0, None)])
            == Nutrition(14.0, 154.0, 1.2, 700.0)
  {
    var z := map["Reis" := 200.0];
    SumOverPick(z.Keys, z, map["Reis" := Ingredient(7.0, 77.0, 0.6, 350.0, None)], "Reis");
    assert z.Keys - {"Reis"} == {};
  }
}
