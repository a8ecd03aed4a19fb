/** The recipe form (`RecipeForm`): the initial `formData`, the ordered checks
    of `handleSubmit`, and the ingredient list edited by `addIngredient` and
    `removeIngredient` with the `selectedIngredient`, `ingredientQuantity`
    and `error` state around them. */
module RecipeForm {
  import opened Optional
  import opened Text
  import opened Api

  datatype RecipeIngredient = RecipeIngredient(ingredientId: string, quantity: real)

  datatype RecipeData = RecipeData(
    name: string, description: string, servings: real, preparationTime: real,
    difficulty: string, instructions: string, operationalCost: real, sellingPrice: real,
    categoryId: Option<string>, ingredients: seq<RecipeIngredient>)

  /** `initialData`: any subset of the fields. */
  datatype RecipeDraft = RecipeDraft(
    name: Option<string>, description: Option<string>, servings: Option<real>,
    preparationTime: Option<real>, difficulty: Option<string>, instructions: Option<string>,
    operationalCost: Option<real>, sellingPrice: Option<real>, categoryId: Option<string>,
    ingredients: Option<seq<RecipeIngredient>>)

  const NoDraft := RecipeDraft(None, None, None, None, None, None, None, None, None, None)

  /** The defaults the form starts from. */
  const Defaults := RecipeData("", "", 1.0, 0.0, "EASY", "", 0.0, 0.0, None, [])

  function Pick<T>(supplied: Option<T>, default: T): T
  {
    if supplied.Some? then supplied.value else default
  }

  /** `{ ...defaults, ingredients: initialData?.ingredients || [], ...initialData }` */
  function InitialData(init: RecipeDraft): RecipeData
  {
    RecipeData(
      Pick(init.name, Defaults.name), Pick(init.description, Defaults.description),
      Pick(init.servings, Defaults.servings), Pick(init.preparationTime, Defaults.preparationTime),
      Pick(init.difficulty, Defaults.difficulty), Pick(init.instructions, Defaults.instructions),
      Pick(init.operationalCost, Defaults.operationalCost), Pick(init.sellingPrice, Defaults.sellingPrice),
      if init.categoryId.Some? then init.categoryId else Defaults.categoryId,
      Pick(init.ingredients, Defaults.ingredients))
  }

  /** Without `initialData` the form starts with one serving and no ingredients. */
  lemma InitialWithoutDraft()
    ensures InitialData(NoDraft) == Defaults
    ensures InitialData(NoDraft).servings == 1.0 && InitialData(NoDraft).ingredients == []
  {
  }

  /** Every value `initialData` supplies overrides its default, and every
      field it leaves out keeps the default. */
  lemma InitialKeepsSupplied(init: RecipeDraft)
    ensures InitialData(init).name == (if init.name.Some? then init.name.value else "")
    ensures InitialData(init).description == (if init.description.Some? then init.description.value else "")
    ensures InitialData(init).servings == (if init.servings.Some? then init.servings.value else 1.0)
    ensures InitialData(init).preparationTime ==
              (if init.preparationTime.Some? then init.preparationTime.value else 0.0)
    ensures InitialData(init).difficulty == (if init.difficulty.Some? then init.difficulty.value else "EASY")
    ensures InitialData(init).instructions == (if init.instructions.Some? then init.instructions.value else "")
    ensures InitialData(init).operationalCost ==
              (if init.operationalCost.Some? then init.operationalCost.value else 0.0)
    ensures InitialData(init).sellingPrice == (if init.sellingPrice.Some? then init.sellingPrice.value else 0.0)
    ensures InitialData(init).categoryId == init.categoryId
    ensures InitialData(init).ingredients == (if init.ingredients.Some? then init.ingredients.value else [])
  {
  }

  // ---------------------------------------------------------------------------
  // Submission.

  const NameRequired := "Nome da receita é obrigatório"
  const ServingsPositive := "Número de porções deve ser maior que zero"
  const IngredientRequired := "Adicione pelo menos um ingrediente"
  const SaveFailed := "Erro ao salvar receita"

  /** The checks of `handleSubmit`, in order: the first that fails gives the message. */
  function SubmitCheck(d: RecipeData): Option<string>
  {
    if Trim(d.name) == "" then Some(NameRequired)
    else if d.servings <= 0.0 then Some(ServingsPositive)
    else if |d.ingredients| == 0 then Some(IngredientRequired)
    else None
  }

  /** A submission passes exactly when the name is not blank, servings are
      positive and some ingredient is listed; otherwise the message is that of
      the first of these checks that fails. */
  lemma SubmitCheckOrder(d: RecipeData)
    ensures SubmitCheck(d) == None <==> !IsBlank(d.name) && d.servings > 0.0 && |d.ingredients| > 0
    ensures SubmitCheck(d) == Some(NameRequired) <==> IsBlank(d.name)
    ensures SubmitCheck(d) == Some(ServingsPositive) <==> !IsBlank(d.name) && d.servings <= 0.0
    ensures SubmitCheck(d) == Some(IngredientRequired) <==>
              !IsBlank(d.name) && d.servings > 0.0 && |d.ingredients| == 0
  {
    TrimEmptyIffBlank(d.name);
    assert NameRequired[1] != ServingsPositive[1] && NameRequired[0] != IngredientRequired[0];
    assert ServingsPositive[0] != IngredientRequired[0];
  }

  /** The checks never look at the instructions, the costs or the price. */
  lemma SubmitCheckIgnores(d: RecipeData, instructions: string, operationalCost: real, sellingPrice: real)
    ensures SubmitCheck(d.(instructions := instructions, operationalCost := operationalCost,
                           sellingPrice := sellingPrice)) == SubmitCheck(d)
  {
  }

  // ---------------------------------------------------------------------------
  // Editing the ingredient list.

  const SelectIngredient := "Selecione um ingrediente"
  const QuantityPositive := "Quantidade deve ser maior que zero"

  /** What `addIngredient` does to the list: append the selection, or refuse with a message. */
  datatype AddOutcome = Added(ingredients: seq<RecipeIngredient>) | Refused(message: string)

  function AddIngredientTo(ingredients: seq<RecipeIngredient>, selected: string, quantity: real): AddOutcome
  {
    if selected == "" then Refused(SelectIngredient)
    else if quantity <= 0.0 then Refused(QuantityPositive)
    else Added(ingredients + [RecipeIngredient(selected, quantity)])
  }

  /** Nothing selected is refused first, then a non-positive quantity; otherwise
      exactly one entry is appended after the unchanged earlier ones, even
      when the same ingredient is already listed. */
  lemma AddIngredientSpec(ingredients: seq<RecipeIngredient>, selected: string, quantity: real)
    ensures AddIngredientTo(ingredients, selected, quantity).Refused? <==> selected == "" || quantity <= 0.0
    ensures selected == "" ==> AddIngredientTo(ingredients, selected, quantity) == Refused(SelectIngredient)
    ensures selected != "" && quantity <= 0.0 ==>
              AddIngredientTo(ingredients, selected, quantity) == Refused(QuantityPositive)
    ensures AddIngredientTo(ingredients, selected, quantity).Added? ==>
              var r := AddIngredientTo(ingredients, selected, quantity).ingredients;
              |r| == |ingredients| + 1 && r[..|ingredients|] == ingredients &&
              r[|ingredients|] == RecipeIngredient(selected, quantity)
  {
  }

  /** `ingredients.filter((_, i) => i !== index)`: drop the entry at `index`. */
  function WithoutIndex(s: seq<RecipeIngredient>, index: int): (r: seq<RecipeIngredient>)
    decreases |s|
  {
    if s == [] then []
    else (if index == 0 then [] else [s[0]]) + WithoutIndex(s[1..], index - 1)
  }

  /** Removing drops exactly the entry at an index in range and keeps the rest
      in order; an index out of range leaves the list as it was. */
  lemma WithoutIndexSpec(s: seq<RecipeIngredient>, index: int)
    ensures 0 <= index < |s| ==> WithoutIndex(s, index) == s[..index] + s[index + 1..]
    ensures !(0 <= index < |s|) ==> WithoutIndex(s, index) == s
  {
    if 0 <= index < |s| {
      WithoutIndexInRange(s, index);
    } else {
      WithoutIndexOutOfRange(s, index);
    }
  }

  lemma {:induction false} WithoutIndexOutOfRange(s: seq<RecipeIngredient>, index: int)
    requires !(0 <= index < |s|)
    ensures WithoutIndex(s, index) == s
    decreases |s|
  {
    if s != [] {
      WithoutIndexOutOfRange(s[1..], index - 1);
      assert [s[0]] + s[1..] == s;
    }
  }

  lemma {:induction false} WithoutIndexInRange(s: seq<RecipeIngredient>, index: int)
    requires 0 <= index < |s|
    ensures WithoutIndex(s, index) == s[..index] + s[index + 1..]
    decreases |s|
  {
    var tail := s[1..];
    if index == 0 {
      WithoutIndexOutOfRange(tail, -1);
      assert s[..0] + s[1..] == tail;
    } else {
      WithoutIndexInRange(tail, index - 1);
      assert [s[0]] + tail[..index - 1] == s[..index];
      assert tail[index..] == s[index + 1..];
    }
  }

  class RecipeFormState {
    var data: RecipeData
    var selectedIngredient: string
    var ingredientQuantity: real
    var error: string

    constructor (init: RecipeDraft)
      ensures data == InitialData(init)
      ensures selectedIngredient == "" && ingredientQuantity == 0.0 && error == ""
    {
      data := InitialData(init);
      selectedIngredient := "";
      ingredientQuantity := 0.0;
      error := "";
    }

    /** The ingredient picker and the quantity input. */
    method SetSelectedIngredient(id: string)
      modifies this`selectedIngredient
      ensures selectedIngredient == id
    {
      selectedIngredient := id;
    }

    method SetIngredientQuantity(quantity: real)
      modifies this`ingredientQuantity
      ensures ingredientQuantity == quantity
    {
      ingredientQuantity := quantity;
    }

    /** `handleSubmit`: clears the error, stops at the first failed check with
        its message, and otherwise hands `formData` to `onSubmit`, whose
        outcome is `onSubmit`; a throw stores its message or the default. */
    method HandleSubmit(onSubmit: Response<()>) returns (submitted: Option<RecipeData>)
      modifies this`error
      ensures submitted == (if SubmitCheck(data).None? then Some(data) else None)
      ensures SubmitCheck(data).Some? ==> error == SubmitCheck(data).value
      ensures SubmitCheck(data).None? && onSubmit.Resolved? ==> error == ""
      ensures SubmitCheck(data).None? && onSubmit.Threw? ==> error == MessageOr(onSubmit.thrown, SaveFailed)
    {
      error := "";
      submitted := None;
      if Trim(data.name) == "" {
        error := NameRequired;
        return;
      }
      if data.servings <= 0.0 {
        error := ServingsPositive;
        return;
      }
      if |data.ingredients| == 0 {
        error := IngredientRequired;
        return;
      }
      submitted := Some(data);
      if onSubmit.Threw? {
        error := MessageOr(onSubmit.thrown, SaveFailed);
      }
    }

    /** `addIngredient` */
    method AddIngredient()
      modifies this
      ensures var outcome := AddIngredientTo(old(data.ingredients), old(selectedIngredient), old(ingredientQuantity));
              match outcome
              case Refused(message) =>
                error == message && data == old(data) &&
                selectedIngredient == old(selectedIngredient) && ingredientQuantity == old(ingredientQuantity)
              case Added(ingredients) =>
                data == old(data).(ingredients := ingredients) &&
                selectedIngredient == "" && ingredientQuantity == 0.0 && error == ""
    {
      if selectedIngredient == "" {
        error := SelectIngredient;
        return;
      }
      if ingredientQuantity <= 0.0 {
        error := QuantityPositive;
        return;
      }
      data := data.(ingredients := data.ingredients + [RecipeIngredient(selectedIngredient, ingredientQuantity)]);
      selectedIngredient := "";
      ingredientQuantity := 0.0;
      error := "";
    }

    /** `removeIngredient` */
    method RemoveIngredient(index: int)
      modifies this`data
      ensures data == old(data).(ingredients := WithoutIndex(old(data.ingredients), index))
    {
      data := data.(ingredients := WithoutIndex(data.ingredients, index));
    }
  }
}
