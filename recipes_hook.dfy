/** The client-side state of `useRecipes` (the recipe list cache) and of
    `useRecipe` (one recipe loaded by id), and the empty-value branch of
    `safeNumber`. Each operation receives the outcome of its API call as a
    parameter; an operation that rethrows reports `Err` with the message it
    throws. */
module RecipesHook {
  import opened Optional
  import opened Api
  import opened Lists

  /** The API's recipe record; only its id is looked at here. */
  datatype Recipe = Recipe(id: string, name: string, servings: real)

  function RecipeId(r: Recipe): string
  {
    r.id
  }

  /** A JavaScript value as `safeNumber` receives it. */
  datatype JsValue = Null | Undefined | Str(s: string) | Num(x: real)

  /** `safeNumber`: `null`, `undefined` and "" give `undefined`; anything
      else is what `Number(value)` gives, `undefined` standing for `NaN`. */
  function SafeNumber(v: JsValue, toNumber: JsValue -> Option<real>): (r: Option<real>)
    ensures v == Null || v == Undefined || v == Str("") ==> r == None
  {
    if v == Null || v == Undefined || v == Str("") then None else toNumber(v)
  }

  /** The empty values give `undefined` however `Number` would convert them
      (`Number("")` would give 0). */
  lemma SafeNumberEmptyIsUndefined(toNumber: JsValue -> Option<real>)
    ensures SafeNumber(Null, toNumber) == None
    ensures SafeNumber(Undefined, toNumber) == None
    ensures SafeNumber(Str(""), toNumber) == None
    ensures forall v :: v != Null && v != Undefined && v != Str("") ==> SafeNumber(v, toNumber) == toNumber(v)
  {
  }

  const FetchListFailed := "Erro ao carregar receitas"
  const CreateFailed := "Erro ao criar receita"
  const UpdateFailed := "Erro ao atualizar receita"
  const DeleteFailed := "Erro ao deletar receita"
  const FetchOneFailed := "Erro ao carregar receita"

  class RecipeStore {
    var recipes: seq<Recipe>
    var loading: bool
    var error: Option<string>

    /** An empty list, loading, and no error. */
    constructor ()
      ensures recipes == [] && loading && error == None
    {
      recipes := [];
      loading := true;
      error := None;
    }

    /** `fetchRecipes`: success replaces the list and clears the error;
        failure keeps the list and stores the message or the default; loading
        ends false either way. */
    method Fetch(outcome: Response<seq<Recipe>>)
      modifies this
      ensures outcome.Resolved? ==> recipes == outcome.value && error == None
      ensures outcome.Threw? ==>
                recipes == old(recipes) && error == Some(MessageOr(outcome.thrown, FetchListFailed))
      ensures !loading
    {
      loading := true;
      match outcome {
        case Resolved(data) =>
          recipes := data;
          error := None;
        case Threw(t) =>
          error := Some(MessageOr(t, FetchListFailed));
      }
      loading := false;
    }

    /** `createRecipe` */
    method Create(outcome: Response<Recipe>) returns (r: Result<Recipe>)
      modifies this`recipes
      ensures outcome.Resolved? ==> recipes == Prepend(old(recipes), outcome.value) && r == Ok(outcome.value)
      ensures outcome.Threw? ==> recipes == old(recipes) && r == Rethrown(outcome.thrown, CreateFailed)
    {
      match outcome
      case Resolved(x) =>
        recipes := Prepend(recipes, x);
        r := Ok(x);
      case Threw(t) =>
        r := Rethrown(t, CreateFailed);
    }

    /** `updateRecipe` */
    method Update(id: string, outcome: Response<Recipe>) returns (r: Result<Recipe>)
      modifies this`recipes
      ensures outcome.Resolved? ==>
                recipes == ReplaceById(old(recipes), RecipeId, id, outcome.value) && r == Ok(outcome.value)
      ensures outcome.Threw? ==> recipes == old(recipes) && r == Rethrown(outcome.thrown, UpdateFailed)
    {
      match outcome
      case Resolved(x) =>
        recipes := ReplaceById(recipes, RecipeId, id, x);
        r := Ok(x);
      case Threw(t) =>
        r := Rethrown(t, UpdateFailed);
    }

    /** `deleteRecipe` */
    method Delete(id: string, outcome: Response<()>) returns (r: Result<()>)
      modifies this`recipes
      ensures outcome.Resolved? ==> recipes == RemoveById(old(recipes), RecipeId, id) && r == Ok(())
      ensures outcome.Threw? ==> recipes == old(recipes) && r == Rethrown(outcome.thrown, DeleteFailed)
    {
      match outcome
      case Resolved(_) =>
        recipes := RemoveById(recipes, RecipeId, id);
        r := Ok(());
      case Threw(t) =>
        r := Rethrown(t, DeleteFailed);
    }
  }

  /** `useRecipe(id)`: one recipe, fetched only for a non-empty id. */
  class RecipeLoader {
    const id: string
    var recipe: Option<Recipe>
    var loading: bool
    var error: Option<string>

    /** No recipe yet, loading, and no error. */
    constructor (id: string)
      ensures this.id == id && recipe == None && loading && error == None
    {
      this.id := id;
      recipe := None;
      loading := true;
      error := None;
    }

    /** `fetchRecipe`: with an empty id it returns before touching any state,
        so `recipe` stays as it was and `loading` keeps its value (initially
        true, for good); otherwise as the list fetch, on one recipe. */
    method Fetch(outcome: Response<Recipe>)
      modifies this`recipe, this`loading, this`error
      ensures id == "" ==> recipe == old(recipe) && loading == old(loading) && error == old(error)
      ensures id != "" && outcome.Resolved? ==> recipe == Some(outcome.value) && error == None && !loading
      ensures id != "" && outcome.Threw? ==>
                recipe == old(recipe) && error == Some(MessageOr(outcome.thrown, FetchOneFailed)) && !loading
    {
      if id == "" {
        return;
      }
      loading := true;
      match outcome {
        case Resolved(data) =>
          recipe := Some(data);
          error := None;
        case Threw(t) =>
          error := Some(MessageOr(t, FetchOneFailed));
      }
      loading := false;
    }
  }

  /** Creating grows the list by one in front and keeps the older recipes in
      order; updating keeps length and order and touches only the entries
      with that id. */
  lemma CreateAndUpdateShape(recipes: seq<Recipe>, x: Recipe, id: string)
    ensures |Prepend(recipes, x)| == |recipes| + 1 && IsSubsequence(recipes, Prepend(recipes, x))
    ensures |ReplaceById(recipes, RecipeId, id, x)| == |recipes|
    ensures forall i :: 0 <= i < |recipes| && recipes[i].id != id ==>
              ReplaceById(recipes, RecipeId, id, x)[i] == recipes[i]
    ensures forall i :: 0 <= i < |recipes| && recipes[i].id == id ==>
              ReplaceById(recipes, RecipeId, id, x)[i] == x
  {
    SubsequenceOfSelf(recipes);
    assert Prepend(recipes, x)[1..] == recipes;
    ReplaceByIdSpec(recipes, RecipeId, id, x);
  }

  /** Deleting removes every recipe with the id and keeps the others in order. */
  lemma DeleteShape(recipes: seq<Recipe>, id: string)
    ensures forall r :: r in RemoveById(recipes, RecipeId, id) <==> r in recipes && r.id != id
    ensures IsSubsequence(RemoveById(recipes, RecipeId, id), recipes)
    ensures forall r :: multiset(RemoveById(recipes, RecipeId, id))[r] ==
              (if r.id != id then multiset(recipes)[r] else 0)
  {
    RemoveByIdSpec(recipes, RecipeId, id);
  }
}
