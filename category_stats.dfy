/** The statistics cards of the category page (`CategoriaPage`): recipes and
    ingredients summed over the categories, the number of categories, and the
    rounded average of both per category. */
module CategoryStats {

  datatype Category = Category(id: int, name: string, recipes: nat, ingredients: nat)

  /** `categorias.reduce((acc, cat) => acc + cat._count.recipes, 0)` */
  function TotalRecipes(categories: seq<Category>): nat
  {
    if categories == [] then 0
    else TotalRecipes(categories[..|categories| - 1]) + categories[|categories| - 1].recipes
  }

  /** `categorias.reduce((acc, cat) => acc + cat._count.ingredients, 0)` */
  function TotalIngredients(categories: seq<Category>): nat
  {
    if categories == [] then 0
    else TotalIngredients(categories[..|categories| - 1]) + categories[|categories| - 1].ingredients
  }

  /** Both sums split over a concatenation, so each category contributes its
      own counts exactly once. */
  lemma {:induction false} TotalsAppend(a: seq<Category>, b: seq<Category>)
    ensures TotalRecipes(a + b) == TotalRecipes(a) + TotalRecipes(b)
    ensures TotalIngredients(a + b) == TotalIngredients(a) + TotalIngredients(b)
    decreases |b|
  {
    if b == [] {
      assert a + b == a;
    } else {
      var n := |b| - 1;
      assert (a + b)[..|a + b| - 1] == a + b[..n];
      TotalsAppend(a, b[..n]);
    }
  }

  /** `Math.round(total / n)` for a positive count `n`: the mean rounded half up,
      which for integers is `floor((2 * total + n) / (2 * n))`. */
  function RoundedMean(total: int, n: int): int
    requires n > 0
  {
    (2 * total + n) / (2 * n)
  }

  /** The average card: 0 without categories. */
  function AveragePerCategory(categories: seq<Category>): int
  {
    if |categories| > 0
    then RoundedMean(TotalRecipes(categories) + TotalIngredients(categories), |categories|)
    else 0
  }

  /** The rounded mean is within half a unit of the exact mean, a tie going up:
      `mean - 1/2 <= r < mean + 1/2`. */
  lemma RoundedMeanBounds(total: int, n: int)
    requires n > 0
    ensures 2 * n * RoundedMean(total, n) - n <= 2 * total < 2 * n * RoundedMean(total, n) + n
    ensures total >= 0 ==> RoundedMean(total, n) >= 0
  {
    var r := RoundedMean(total, n);
    assert 2 * n * r <= 2 * total + n < 2 * n * r + 2 * n;
  }

  /** The average is 0 for no categories and otherwise the rounded mean of all
      recipes and ingredients per category; it is never negative. */
  lemma AverageSpec(categories: seq<Category>)
    ensures |categories| == 0 ==> AveragePerCategory(categories) == 0
    ensures |categories| > 0 ==>
              var total := TotalRecipes(categories) + TotalIngredients(categories);
              var n := |categories|;
              2 * n * AveragePerCategory(categories) - n <= 2 * total < 2 * n * AveragePerCategory(categories) + n
    ensures AveragePerCategory(categories) >= 0
  {
    if |categories| > 0 {
      RoundedMeanBounds(TotalRecipes(categories) + TotalIngredients(categories), |categories|);
    }
  }

  /** The page's mock list. */
  const Fixture: seq<Category> := [
    Category(1, "Bolos", 8, 12), Category(2, "Tortas", 5, 8),
    Category(3, "Doces", 15, 6), Category(4, "Pães", 3, 10)
  ]

  /** On the mock list: 4 categories, 31 recipes, 36 ingredients, and 67 / 4 = 16.75 shown as 17. */
  lemma FixtureFigures()
    ensures |Fixture| == 4
    ensures TotalRecipes(Fixture) == 31 && TotalIngredients(Fixture) == 36
    ensures AveragePerCategory(Fixture) == 17
  {
    assert Fixture[..3][..2][..1][..0] == [];
    assert Fixture[..3][..2] == Fixture[..2];
    assert Fixture[..2][..1] == Fixture[..1];
    assert TotalRecipes(Fixture[..1]) == 8 && TotalIngredients(Fixture[..1]) == 12;
    assert TotalRecipes(Fixture[..2]) == 13 && TotalIngredients(Fixture[..2]) == 20;
    assert TotalRecipes(Fixture[..3]) == 28 && TotalIngredients(Fixture[..3]) == 26;
  }
}
