/** The client-side cache of `useIngredients`: the ingredient list, the
    loading flag and the error message, and how each awaited API call changes
    them. Each operation receives the outcome of its API call as a parameter;
    an operation that rethrows reports `Err` with the message it throws. */
module IngredientsHook {
  import opened Optional
  import opened Api
  import opened Lists

  /** The API's ingredient record; only its id is looked at here. */
  datatype Ingredient = Ingredient(id: string, name: string, unit: string, currentStock: real)

  function IngredientId(i: Ingredient): string
  {
    i.id
  }

  const FetchFailed := "Erro ao carregar ingredientes"
  const CreateFailed := "Erro ao criar ingrediente"
  const UpdateFailed := "Erro ao atualizar ingrediente"
  const DeleteFailed := "Erro ao deletar ingrediente"
  const StockFailed := "Erro ao atualizar estoque"

  class IngredientStore {
    var ingredients: seq<Ingredient>
    var loading: bool
    var error: Option<string>

    /** An empty list, loading, and no error. */
    constructor ()
      ensures ingredients == [] && loading && error == None
    {
      ingredients := [];
      loading := true;
      error := None;
    }

    /** `fetchIngredients`: success replaces the list and clears the error;
        failure keeps the list and stores the message or the default; loading
        ends false either way. */
    method Fetch(outcome: Response<seq<Ingredient>>)
      modifies this
      ensures outcome.Resolved? ==> ingredients == outcome.value && error == None
      ensures outcome.Threw? ==>
                ingredients == old(ingredients) && error == Some(MessageOr(outcome.thrown, FetchFailed))
      ensures !loading
    {
      loading := true;
      match outcome {
        case Resolved(data) =>
          ingredients := data;
          error := None;
        case Threw(t) =>
          error := Some(MessageOr(t, FetchFailed));
      }
      loading := false;
    }

    /** `createIngredient` */
    method Create(outcome: Response<Ingredient>) returns (r: Result<Ingredient>)
      modifies this`ingredients
      ensures outcome.Resolved? ==> ingredients == Prepend(old(ingredients), outcome.value) && r == Ok(outcome.value)
      ensures outcome.Threw? ==> ingredients == old(ingredients) && r == Rethrown(outcome.thrown, CreateFailed)
    {
      match outcome
      case Resolved(x) =>
        ingredients := Prepend(ingredients, x);
        r := Ok(x);
      case Threw(t) =>
        r := Rethrown(t, CreateFailed);
    }

    /** `updateIngredient` */
    method Update(id: string, outcome: Response<Ingredient>) returns (r: Result<Ingredient>)
      modifies this`ingredients
      ensures outcome.Resolved? ==>
                ingredients == ReplaceById(old(ingredients), IngredientId, id, outcome.value) && r == Ok(outcome.value)
      ensures outcome.Threw? ==> ingredients == old(ingredients) && r == Rethrown(outcome.thrown, UpdateFailed)
    {
      match outcome
      case Resolved(x) =>
        ingredients := ReplaceById(ingredients, IngredientId, id, x);
        r := Ok(x);
      case Threw(t) =>
        r := Rethrown(t, UpdateFailed);
    }

    /** `deleteIngredient` */
    method Delete(id: string, outcome: Response<()>) returns (r: Result<()>)
      modifies this`ingredients
      ensures outcome.Resolved? ==> ingredients == RemoveById(old(ingredients), IngredientId, id) && r == Ok(())
      ensures outcome.Threw? ==> ingredients == old(ingredients) && r == Rethrown(outcome.thrown, DeleteFailed)
    {
      match outcome
      case Resolved(_) =>
        ingredients := RemoveById(ingredients, IngredientId, id);
        r := Ok(());
      case Threw(t) =>
        r := Rethrown(t, DeleteFailed);
    }

    /** `updateStock`: the same list update as `updateIngredient`, with its own default message. */
    method UpdateStock(id: string, outcome: Response<Ingredient>) returns (r: Result<Ingredient>)
      modifies this`ingredients
      ensures outcome.Resolved? ==>
                ingredients == ReplaceById(old(ingredients), IngredientId, id, outcome.value) && r == Ok(outcome.value)
      ensures outcome.Threw? ==> ingredients == old(ingredients) && r == Rethrown(outcome.thrown, StockFailed)
    {
      match outcome
      case Resolved(x) =>
        ingredients := ReplaceById(ingredients, IngredientId, id, x);
        r := Ok(x);
      case Threw(t) =>
        r := Rethrown(t, StockFailed);
    }
  }

  /** Creating grows the list by one and keeps the older entries in order
      behind the new one; deleting the new record's id afterwards removes it
      together with any older entry under that id. */
  lemma CreateThenDelete(ingredients: seq<Ingredient>, x: Ingredient)
    ensures |Prepend(ingredients, x)| == |ingredients| + 1
    ensures IsSubsequence(ingredients, Prepend(ingredients, x))
    ensures RemoveById(Prepend(ingredients, x), IngredientId, x.id) == RemoveById(ingredients, IngredientId, x.id)
  {
    RemoveAfterPrepend(ingredients, IngredientId, x);
    SubsequenceOfSelf(ingredients);
    assert Prepend(ingredients, x)[1..] == ingredients;
  }

  /** An update keeps the length and the order and touches only the entries
      with that id; deleting afterwards is the same as deleting alone. */
  lemma UpdateThenDelete(ingredients: seq<Ingredient>, id: string, x: Ingredient)
    requires x.id == id
    ensures |ReplaceById(ingredients, IngredientId, id, x)| == |ingredients|
    ensures forall i :: 0 <= i < |ingredients| && ingredients[i].id != id ==>
              ReplaceById(ingredients, IngredientId, id, x)[i] == ingredients[i]
    ensures RemoveById(ReplaceById(ingredients, IngredientId, id, x), IngredientId, id) ==
              RemoveById(ingredients, IngredientId, id)
  {
    ReplaceByIdSpec(ingredients, IngredientId, id, x);
    RemoveAfterReplace(ingredients, IngredientId, id, x);
  }
}
