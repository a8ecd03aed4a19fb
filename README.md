# Bakery management frontend: forms, pages and data hooks

This project models the client-side logic of a bakery management web
application, written in TypeScript/React, and proves properties of it in Dafny.
Suppliers are *fornecedores*, categories *categorias*, ingredients *insumos* and
recipes *receitas*. The modelled parts are:

- **Supplier form** (`SupplierForm`):
  - the four field checks (required name, email, phone and CNPJ patterns), with the patterns as written;
  - the digit-stripping phone and CNPJ formatters;
  - the error map that `validateForm` replaces and `handleInputChange` clears field by field.
- **Category form** (`CategoryForm`): the length rules on the trimmed name and description, the change handler, and the suggestion buttons.
- **Recipe form** (`RecipeForm`):
  - the initial `formData`;
  - the ordered checks of `handleSubmit`;
  - `addIngredient` and `removeIngredient` with the selection, quantity and error state around them.
- **Ingredient page** (`Inventory`): the low-stock list, the total stock value, the distinct-supplier count, and the expired / expiring-soon tests.
- **Supplier page** (`SupplierList`): the search filter, delete by id, the label lookups, the active / inactive counts and the badge conditions.
- **Category page** (`CategoryStats`): the two sums and the rounded average per category.
- **Data hooks** (`IngredientsHook`, `RecipesHook`):
  - the list caches of `useIngredients` and `useRecipes`;
  - the `useRecipe` loader;
  - the empty-value branch of `safeNumber`.

Shared modules:

- `Text`: ECMAScript `trim` and white space, the `\d` class, `replace(/\D/g, "")`, `toLowerCase` and `includes`.
- `Regex`: a small semantics of anchored regular expressions with counted repetition, enough to state the three field patterns literally.
- `Lists`: `filter`, `map`-replace, prepend, and id-keyed replace and remove.
- `Api` and `Optional`: outcomes of awaited calls, and absent values.

Modelling choices:

- Each event handler is one atomic step on a class whose fields are the component's state.
- What an awaited API call resolved to or threw is a parameter of the handler. An operation that rethrows reports `Err` with the thrown error's message.
- Instants are integer milliseconds and money and quantities are `real`.
- A cleared error is a removed key. The source keeps the key with the value `undefined`, and nothing reads it.

The phone check in the supplier form can match no string as written. Its
pattern has two `$` end anchors between `^` and `\d{2}`, so every non-empty
phone is rejected, including every output of the phone formatter. The model
keeps that behaviour (`SupplierForm.PhonePatternMatchesNothing`,
`SupplierForm.FormattedPhoneRejected`).

Three facts about the code that the contracts make explicit:

- The recipe form checks only a non-blank name, servings above 0 and a non-empty ingredient list. It accepts the same ingredient twice (`RecipeForm.AddIngredientSpec`).
- The ingredient page splits stock only into low (`stock <= minStock`) and not low.
- The expiring-soon window is fixed at 30 days.

Lengths tested with `.length` count UTF-16 code units, so a character outside the Basic Multilingual Plane counts twice (`Text.Utf16Length`).

## Model

| member | source | states |
|---|---|---|
| Text.TrimEmptyIffBlank | frontend/src/components/fornecedor/fornecedor-form.tsx:47 | `s.trim()` is empty (falsy) exactly when every character of `s` is ECMAScript white space |
| Text.Utf16Length | frontend/src/components/categoria/categoria-form.tsx:67-75 | `.length` counts one or two UTF-16 code units per character, so it lies between the character count and twice that |
| Text.Utf16LengthIffBmp | frontend/src/components/categoria/categoria-form.tsx:67-75 | `.length` equals the character count exactly when no character lies outside the Basic Multilingual Plane |
| Text.Lower | frontend/src/app/cadastro/fornecedor/page.tsx:89 | lowering keeps the length and lowers each character in place |
| Text.LowerIdempotent | frontend/src/app/cadastro/fornecedor/page.tsx:89-90 | a lowered search term lowers to itself |
| Text.ContainsEmpty | frontend/src/app/cadastro/fornecedor/page.tsx:89 | every string includes the empty term |
| Lists.Filter | frontend/src/app/cadastro/insumo/page.tsx:66 | a filter result holds exactly the elements that pass, each as many times as in the input, and never more elements than the input |
| Lists.FilterIsSubsequence | frontend/src/app/cadastro/insumo/page.tsx:66 | a filter result is an order-preserving subsequence of its input |
| Lists.FilterSplit | frontend/src/app/cadastro/fornecedor/page.tsx:177-189 | filtering by a predicate and by its negation splits the list's length in two |
| Lists.Prepend | frontend/src/hooks/use-ingredients.ts:38 | the new entry is first and the old list follows unchanged, one longer |
| Lists.ReplaceByIdSpec | frontend/src/hooks/use-ingredients.ts:48-52 | replace-by-id keeps length and order, replaces every entry with the id, keeps every other entry, and changes nothing for an absent id |
| Lists.RemoveByIdSpec | frontend/src/hooks/use-ingredients.ts:62 | remove-by-id drops exactly the entries with the id, keeps the rest in order, and changes nothing exactly when the id is absent; every other entry keeps its multiplicity |
| Lists.RemoveAfterReplace | frontend/src/hooks/use-ingredients.ts:48-62 | deleting an id after updating it gives the same list as deleting it alone |
| Lists.RemoveAfterPrepend | frontend/src/hooks/use-ingredients.ts:38-62 | deleting the id of a just-created record gives the same list as deleting it from the list before creation |
| Api.Rethrown | frontend/src/hooks/use-ingredients.ts:40-42 | a rethrown failure carries the thrown `Error`'s message, or the fallback for any other thrown value |
| SupplierForm.EmailPatternIff | frontend/src/components/fornecedor/fornecedor-form.tsx:52-54 | the email pattern accepts exactly the strings with no white space, exactly one '@' after a non-empty local part, and a '.' in the domain that is neither its first nor last character |
| SupplierForm.PhonePatternMatchesNothing | frontend/src/components/fornecedor/fornecedor-form.tsx:57-59 | the phone pattern as written matches no string |
| SupplierForm.CnpjPatternIff | frontend/src/components/fornecedor/fornecedor-form.tsx:62-64 | the CNPJ pattern accepts exactly the 18-character strings DD.DDD.DDD/DDDD-DD; no check digit is involved |
| SupplierForm.ErrorKeys | frontend/src/components/fornecedor/fornecedor-form.tsx:43-67 | a field has an error exactly when its check fires (blank name; non-empty value failing its pattern); address and the active flag never do; the map is empty exactly when no check fires |
| SupplierForm.ErrorsMeaning | frontend/src/components/fornecedor/fornecedor-form.tsx:43-67 | the same, without patterns: blank name, non-empty email not of the email shape, any non-empty phone, non-empty CNPJ not of the CNPJ layout |
| SupplierForm.ErrorMessages | frontend/src/components/fornecedor/fornecedor-form.tsx:47-64 | each error carries its field's fixed message |
| SupplierForm.FormatPhoneKeepsDigits | frontend/src/components/fornecedor/fornecedor-form.tsx:93-99 | the phone formatter only adds punctuation: its digits are exactly the input's digits |
| SupplierForm.FormatPhoneIdempotent | frontend/src/components/fornecedor/fornecedor-form.tsx:93-99 | formatting a formatted phone changes nothing |
| SupplierForm.FormatPhoneLayout | frontend/src/components/fornecedor/fornecedor-form.tsx:93-99 | fewer than 10 digits come back bare; exactly 10 become "(DD) DDDD-DDDD"; 11 or more have the first 11 laid out as "(DD) DDDDD-DDDD" followed by the rest |
| SupplierForm.FormatCnpjKeepsDigits | frontend/src/components/fornecedor/fornecedor-form.tsx:101-104 | the CNPJ formatter only adds punctuation: its digits are exactly the input's digits |
| SupplierForm.FormatCnpjLayout | frontend/src/components/fornecedor/fornecedor-form.tsx:101-104 | fewer than 14 digits come back bare; from 14 on the result is 4 longer than the digits, with '.', '.', '/' and '-' at positions 2, 6, 10 and 15 and digits everywhere else |
| SupplierForm.FormatCnpjIdempotent | frontend/src/components/fornecedor/fornecedor-form.tsx:101-104 | formatting a formatted CNPJ changes nothing |
| SupplierForm.FormatCnpjAccepted | frontend/src/components/fornecedor/fornecedor-form.tsx:101-104 | the CNPJ formatter's output passes the CNPJ check exactly when the input had no digit or exactly 14 digits |
| SupplierForm.FormattedPhoneRejected | frontend/src/components/fornecedor/fornecedor-form.tsx:57-59 | a phone stored by the phone handler gets an error exactly when the typed value had a digit |
| SupplierForm.SetChangesOnlyField | frontend/src/components/fornecedor/fornecedor-form.tsx:85 | setting one field gives it the new value and leaves every other field as it was |
| SupplierForm.SupplierFormState.constructor | frontend/src/components/fornecedor/fornecedor-form.tsx:32-41 | supplied text fields or "", supplied active flag or true, no errors |
| SupplierForm.SupplierFormState.ValidateForm | frontend/src/components/fornecedor/fornecedor-form.tsx:43-68 | the whole error map is replaced by the checks' result, and the result is true exactly when it is empty |
| SupplierForm.SupplierFormState.HandleSubmit | frontend/src/components/fornecedor/fornecedor-form.tsx:70-82 | validates, and calls `onSubmit` exactly when no check fires |
| SupplierForm.SupplierFormState.HandleInputChange | frontend/src/components/fornecedor/fornecedor-form.tsx:84-91 | only the named field changes, and only that field's error is cleared |
| SupplierForm.SupplierFormState.HandlePhoneChange | frontend/src/components/fornecedor/fornecedor-form.tsx:106-109 | stores the formatted phone and clears the phone error only |
| SupplierForm.SupplierFormState.HandleCnpjChange | frontend/src/components/fornecedor/fornecedor-form.tsx:111-114 | stores the formatted CNPJ and clears the CNPJ error only |
| CategoryForm.NameRule | frontend/src/components/categoria/categoria-form.tsx:64-71 | the name passes exactly when its trimmed length in UTF-16 code units is 2 to 50; otherwise one message, the first of blank / under 2 / over 50 |
| CategoryForm.DescriptionRule | frontend/src/components/categoria/categoria-form.tsx:74-76 | a blank description passes; a filled one fails exactly when its trimmed length in UTF-16 code units is under 10; no upper bound |
| CategoryForm.ValidIff | frontend/src/components/categoria/categoria-form.tsx:61-80 | the error map is empty exactly when both rules pass, lengths in UTF-16 code units, and only name and description can have errors |
| CategoryForm.SurrogatePairsCountTwice | frontend/src/components/categoria/categoria-form.tsx:64-71 | a name of one character outside the Basic Multilingual Plane passes, 25 such characters pass, and 26 get "at most 50" |
| CategoryForm.ValidWhenUntrimmed | frontend/src/components/categoria/categoria-form.tsx:61-80 | fields with no white space at either end, a name of 2 to 25 characters and a description of at least 10 pass, whatever the characters, since `.length` counts each one once or twice |
| CategoryForm.SuggestionsValid | frontend/src/components/categoria/categoria-form.tsx:50-59 | every suggestion passes validation |
| CategoryForm.CategoryFormState.constructor | frontend/src/components/categoria/categoria-form.tsx:28-33 | supplied fields or "", no errors |
| CategoryForm.CategoryFormState.ValidateForm | frontend/src/components/categoria/categoria-form.tsx:61-80 | the whole error map is replaced, and the result is true exactly when it is empty |
| CategoryForm.CategoryFormState.HandleSubmit | frontend/src/components/categoria/categoria-form.tsx:82-94 | validates, and calls `onSubmit` exactly when the form is valid |
| CategoryForm.CategoryFormState.HandleInputChange | frontend/src/components/categoria/categoria-form.tsx:96-103 | only the given field changes, and only its error is cleared |
| CategoryForm.CategoryFormState.HandleSuggestionClick | frontend/src/components/categoria/categoria-form.tsx:105-111 | both fields take the suggestion and every error is cleared |
| RecipeForm.InitialWithoutDraft | frontend/src/components/recipes/recipe-form.tsx:33-45 | without `initialData` the form starts from the defaults: one serving, no ingredients |
| RecipeForm.InitialKeepsSupplied | frontend/src/components/recipes/recipe-form.tsx:33-45 | each of the ten fields takes the value `initialData` supplies, and otherwise its default ("", 1, 0, "EASY", no category, no ingredients) |
| RecipeForm.SubmitCheckOrder | frontend/src/components/recipes/recipe-form.tsx:57-70 | submission passes exactly when the name is not blank, servings are above 0 and some ingredient is listed; otherwise the message of the first failing check, in that order |
| RecipeForm.SubmitCheckIgnores | frontend/src/components/recipes/recipe-form.tsx:53-77 | the checks never depend on the instructions, the operational cost or the selling price |
| RecipeForm.AddIngredientSpec | frontend/src/components/recipes/recipe-form.tsx:79-104 | refused with "Selecione um ingrediente" when nothing is selected, then with the quantity message when the quantity is not positive; otherwise exactly one entry is appended after the unchanged earlier ones, a duplicate id included |
| RecipeForm.WithoutIndexSpec | frontend/src/components/recipes/recipe-form.tsx:106-111 | removing drops exactly the entry at an index in range, keeping the rest in order; an index out of range changes nothing |
| RecipeForm.RecipeFormState.constructor | frontend/src/components/recipes/recipe-form.tsx:33-49 | the initial form data, no selection, quantity 0, no error |
| RecipeForm.RecipeFormState.SetSelectedIngredient | frontend/src/components/recipes/recipe-form.tsx:47 | the selection becomes the picked id |
| RecipeForm.RecipeFormState.SetIngredientQuantity | frontend/src/components/recipes/recipe-form.tsx:48 | the quantity becomes the typed value |
| RecipeForm.RecipeFormState.HandleSubmit | frontend/src/components/recipes/recipe-form.tsx:53-77 | the error is the first failing check's message, and `onSubmit` is not called; otherwise `onSubmit` gets the form data and the error is "" or the thrown message or default |
| RecipeForm.RecipeFormState.AddIngredient | frontend/src/components/recipes/recipe-form.tsx:79-104 | on refusal only the error changes; on success the list grows by the entry, selection and quantity reset, error cleared |
| RecipeForm.RecipeFormState.RemoveIngredient | frontend/src/components/recipes/recipe-form.tsx:106-111 | only the ingredient list changes, by dropping the entry at the index |
| Inventory.LowStockItemsSpec | frontend/src/app/cadastro/insumo/page.tsx:66 | an item is listed exactly when its stock is at or below its minimum, as many times as it occurs, and the list keeps the page's order |
| Inventory.TotalValueAppend | frontend/src/app/cadastro/insumo/page.tsx:67 | the total of two lists laid end to end is the sum of their totals |
| Inventory.TotalValueSingle | frontend/src/app/cadastro/insumo/page.tsx:67 | the total of no item is 0, of one item its unit cost times its stock |
| Inventory.TotalValueNonNegative | frontend/src/app/cadastro/insumo/page.tsx:67 | with non-negative costs and stocks the total is non-negative |
| Inventory.SupplierIdsMembers | frontend/src/app/cadastro/insumo/page.tsx:68 | a supplier id is counted exactly when it is non-empty and some item names it |
| Inventory.ActiveSuppliersBound | frontend/src/app/cadastro/insumo/page.tsx:68 | the supplier count never exceeds the number of items |
| Inventory.ActiveSuppliersDuplicate | frontend/src/app/cadastro/insumo/page.tsx:68 | another item from an already counted supplier does not change the count |
| Inventory.CeilDivBounds | frontend/src/app/cadastro/insumo/page.tsx:82 | the rounded-up day count is the least whole number of days covering the difference |
| Inventory.ExpiringSoonIff | frontend/src/app/cadastro/insumo/page.tsx:77-84 | expiring soon exactly when a date is set and it lies later than now by at most 30 days |
| Inventory.ExpiryExclusive | frontend/src/app/cadastro/insumo/page.tsx:77-91 | no date is neither expired nor expiring; no date is both; a date equal to now is neither |
| Inventory.ExpiryOverTime | frontend/src/app/cadastro/insumo/page.tsx:77-91 | an expired item stays expired as time passes; an item expiring soon is not expired yet and is expired 30 days and 1 ms later |
| Inventory.FixtureFigures | frontend/src/app/cadastro/insumo/page.tsx:7-68 | on the page's list only the chocolate is low, the stock is worth 494.73, and 4 suppliers are counted |
| SupplierList.SearchSpec | frontend/src/app/cadastro/fornecedor/page.tsx:87-92 | the search keeps exactly the suppliers whose lowered name or present lowered email includes the lowered term, or whose present document includes the term as typed, in order and with their multiplicity |
| SupplierList.SearchEmptyTermKeepsAll | frontend/src/app/cadastro/fornecedor/page.tsx:87-92 | an empty term keeps every supplier |
| SupplierList.SearchIgnoresCaseWithoutDocument | frontend/src/app/cadastro/fornecedor/page.tsx:89-90 | for a supplier without a document, the term's case does not change the outcome |
| SupplierList.WithoutIdSpec | frontend/src/app/cadastro/fornecedor/page.tsx:99 | deleting removes every supplier with the id, keeps the rest in order, and changes nothing exactly when no supplier has it; every other supplier keeps its multiplicity |
| SupplierList.CountsAddUp | frontend/src/app/cadastro/fornecedor/page.tsx:166-189 | active count plus inactive count is the total count |
| SupplierList.PaymentMethodLabelSpec | frontend/src/app/cadastro/fornecedor/page.tsx:108-117 | the five payment methods get their labels; any other string is returned unchanged |
| SupplierList.DocumentLabelSpec | frontend/src/app/cadastro/fornecedor/page.tsx:119-126 | cpf, cnpj and none get their labels; any other string is returned unchanged |
| SupplierList.BadgesSpec | frontend/src/app/cadastro/fornecedor/page.tsx:229-293 | a PIX badge comes only with the "PIX" label and never with a missing or empty key; a supplier without a document badge is labelled "Não informado" |
| SupplierList.FixtureFigures | frontend/src/app/cadastro/fornecedor/page.tsx:35-74 | on the page's list 2 suppliers are active and 1 inactive, only the first shows the PIX badge, and all show the document badge |
| SupplierList.SupplierPage.constructor | frontend/src/app/cadastro/fornecedor/page.tsx:23-25 | no suppliers, loading, empty search |
| SupplierList.SupplierPage.Loaded | frontend/src/app/cadastro/fornecedor/page.tsx:76-80 | the loaded list is stored and loading stops |
| SupplierList.SupplierPage.SetSearchTerm | frontend/src/app/cadastro/fornecedor/page.tsx:25 | the search term becomes the typed value |
| SupplierList.SupplierPage.HandleDelete | frontend/src/app/cadastro/fornecedor/page.tsx:94-106 | confirmed, the suppliers with the id leave the list; declined, nothing changes |
| CategoryStats.TotalsAppend | frontend/src/app/cadastro/categoria/page.tsx:66-67 | both sums split over a concatenation, each category counted once |
| CategoryStats.RoundedMeanBounds | frontend/src/app/cadastro/categoria/page.tsx:127 | the rounded mean is within half a unit of the exact mean, a tie going up, and non-negative for a non-negative total |
| CategoryStats.AverageSpec | frontend/src/app/cadastro/categoria/page.tsx:127 | the average is 0 without categories, otherwise the rounded mean of recipes plus ingredients per category, never negative |
| CategoryStats.FixtureFigures | frontend/src/app/cadastro/categoria/page.tsx:7-127 | on the page's list: 4 categories, 31 recipes, 36 ingredients, average 17 |
| SupplierForm.FormatPhone | frontend/src/components/fornecedor/fornecedor-form.tsx:93-99 | `formatPhone`; its layouts, digits and idempotence are stated by FormatPhoneLayout, FormatPhoneKeepsDigits and FormatPhoneIdempotent |
| SupplierForm.FormatCnpj | frontend/src/components/fornecedor/fornecedor-form.tsx:101-104 | `formatCNPJ`; stated by FormatCnpjLayout, FormatCnpjKeepsDigits, FormatCnpjIdempotent and FormatCnpjAccepted |
| SupplierForm.Errors | frontend/src/components/fornecedor/fornecedor-form.tsx:43-67 | `validateForm`'s `newErrors`; characterised by ErrorKeys, ErrorsMeaning and ErrorMessages |
| CategoryForm.Errors | frontend/src/components/categoria/categoria-form.tsx:61-80 | `validateForm`'s `newErrors`; characterised by NameRule, DescriptionRule and ValidIff |
| RecipeForm.InitialData | frontend/src/components/recipes/recipe-form.tsx:33-45 | the first `formData`; characterised by InitialWithoutDraft and InitialKeepsSupplied |
| RecipeForm.SubmitCheck | frontend/src/components/recipes/recipe-form.tsx:57-70 | the ordered checks of `handleSubmit`; characterised by SubmitCheckOrder and SubmitCheckIgnores |
| RecipeForm.AddIngredientTo | frontend/src/components/recipes/recipe-form.tsx:79-104 | the list update of `addIngredient`; characterised by AddIngredientSpec |
| RecipeForm.WithoutIndex | frontend/src/components/recipes/recipe-form.tsx:106-111 | the list update of `removeIngredient`; characterised by WithoutIndexSpec |
| Inventory.LowStockItems | frontend/src/app/cadastro/insumo/page.tsx:66 | `lowStockItems`; characterised by LowStockItemsSpec |
| Inventory.TotalValue | frontend/src/app/cadastro/insumo/page.tsx:67 | `totalValue`; characterised by TotalValueAppend, TotalValueSingle and TotalValueNonNegative |
| Inventory.ActiveSuppliers | frontend/src/app/cadastro/insumo/page.tsx:68 | `activeSuppliers`; characterised by SupplierIdsMembers, ActiveSuppliersBound and ActiveSuppliersDuplicate |
| Inventory.IsExpiringSoon | frontend/src/app/cadastro/insumo/page.tsx:77-84 | `isExpiringSoon`; characterised by ExpiringSoonIff |
| Inventory.IsExpired | frontend/src/app/cadastro/insumo/page.tsx:86-91 | `isExpired`: false without a date, else the date is strictly before now; characterised by ExpiryExclusive and ExpiryOverTime |
| SupplierList.Search | frontend/src/app/cadastro/fornecedor/page.tsx:87-92 | `filteredFornecedores`; characterised by SearchSpec, SearchEmptyTermKeepsAll and SearchIgnoresCaseWithoutDocument |
| SupplierList.WithoutId | frontend/src/app/cadastro/fornecedor/page.tsx:99 | the list after a confirmed delete; characterised by WithoutIdSpec |
| SupplierList.ActiveCount | frontend/src/app/cadastro/fornecedor/page.tsx:177 | the active card; related to the inactive card and the total by CountsAddUp |
| SupplierList.InactiveCount | frontend/src/app/cadastro/fornecedor/page.tsx:189 | the inactive card; related to the active card and the total by CountsAddUp |
| SupplierList.PaymentMethodLabel | frontend/src/app/cadastro/fornecedor/page.tsx:108-117 | `getPaymentMethodLabel`; characterised by PaymentMethodLabelSpec |
| SupplierList.DocumentLabel | frontend/src/app/cadastro/fornecedor/page.tsx:119-126 | `getDocumentLabel`; characterised by DocumentLabelSpec |
| SupplierList.ShowsPixBadge | frontend/src/app/cadastro/fornecedor/page.tsx:293 | the PIX badge condition; related to the payment label by BadgesSpec |
| SupplierList.ShowsDocumentBadge | frontend/src/app/cadastro/fornecedor/page.tsx:229 | the document badge condition; related to the document label by BadgesSpec |
| CategoryStats.TotalRecipes | frontend/src/app/cadastro/categoria/page.tsx:66 | `totalReceitas`; characterised by TotalsAppend |
| CategoryStats.TotalIngredients | frontend/src/app/cadastro/categoria/page.tsx:67 | `totalInsumos`; characterised by TotalsAppend |
| CategoryStats.AveragePerCategory | frontend/src/app/cadastro/categoria/page.tsx:127 | the average card; characterised by AverageSpec |
| IngredientsHook.IngredientStore.constructor | frontend/src/hooks/use-ingredients.ts:14-16 | no ingredients, loading, no error |
| IngredientsHook.IngredientStore.Fetch | frontend/src/hooks/use-ingredients.ts:18-29 | success replaces the list and clears the error; failure keeps the list and stores the message or default; loading ends false |
| IngredientsHook.IngredientStore.Create | frontend/src/hooks/use-ingredients.ts:35-43 | success prepends the new record and returns it; failure keeps the list and rethrows |
| IngredientsHook.IngredientStore.Update | frontend/src/hooks/use-ingredients.ts:45-57 | success replaces the entries with the id; failure keeps the list and rethrows |
| IngredientsHook.IngredientStore.Delete | frontend/src/hooks/use-ingredients.ts:59-66 | success removes the entries with the id; failure keeps the list and rethrows |
| IngredientsHook.IngredientStore.UpdateStock | frontend/src/hooks/use-ingredients.ts:68-80 | the same list update as an ingredient update, with its own default message |
| IngredientsHook.CreateThenDelete | frontend/src/hooks/use-ingredients.ts:38-62 | creating grows the list by one with the older entries in order behind, and deleting the new id afterwards equals deleting it before |
| IngredientsHook.UpdateThenDelete | frontend/src/hooks/use-ingredients.ts:48-62 | an update keeps length and every entry with another id, and deleting afterwards equals deleting alone |
| RecipesHook.SafeNumber | frontend/src/hooks/use-recipes.ts:7-11 | null, undefined and "" give undefined |
| RecipesHook.SafeNumberEmptyIsUndefined | frontend/src/hooks/use-recipes.ts:8 | the empty values give undefined whatever the number conversion does; other values give the conversion's result |
| RecipesHook.RecipeStore.constructor | frontend/src/hooks/use-recipes.ts:14-16 | no recipes, loading, no error |
| RecipesHook.RecipeStore.Fetch | frontend/src/hooks/use-recipes.ts:18-29 | success replaces the list and clears the error; failure keeps the list and stores the message or default; loading ends false |
| RecipesHook.RecipeStore.Create | frontend/src/hooks/use-recipes.ts:35-43 | success prepends the new recipe; failure keeps the list and rethrows |
| RecipesHook.RecipeStore.Update | frontend/src/hooks/use-recipes.ts:45-55 | success replaces the entries with the id; failure keeps the list and rethrows |
| RecipesHook.RecipeStore.Delete | frontend/src/hooks/use-recipes.ts:57-64 | success removes the entries with the id; failure keeps the list and rethrows |
| RecipesHook.RecipeLoader.constructor | frontend/src/hooks/use-recipes.ts:77-80 | no recipe, loading, no error |
| RecipesHook.RecipeLoader.Fetch | frontend/src/hooks/use-recipes.ts:82-95 | with an empty id nothing changes, so loading stays true; otherwise success stores the recipe, failure stores the message or default, and loading ends false |
| RecipesHook.CreateAndUpdateShape | frontend/src/hooks/use-recipes.ts:38-50 | create grows the list by one with the older recipes in order; update keeps length, replaces exactly the entries with the id and keeps the others |
| RecipesHook.DeleteShape | frontend/src/hooks/use-recipes.ts:60 | delete removes every recipe with the id and keeps the others in order, with their multiplicity |

## Left out

- Text.Lower: only ASCII letters are lowered; the full Unicode case mapping of `toLowerCase` is not modelled.
- SupplierList.PaymentMethodLabelSpec and SupplierList.DocumentLabelSpec: only the tables' own keys are looked up. In the source a key such as "constructor" finds an inherited function, which the `||` returns; the model returns the key.
- RecipesHook.SafeNumberEmptyIsUndefined: `Number(value)` and `isNaN` are a parameter of the model, so only the null / undefined / "" branch is stated.
- RecipeForm.InitialKeepsSupplied: a key present in `initialData` with the value `undefined` overrides the default with `undefined` in the source; the model treats it as not supplied.
- Floating point: costs, stocks, quantities and servings are exact reals, so IEEE-754 rounding of `unitCost * stock` and of the sums is not modelled, nor is NaN. The day count uses exact integer ceiling division instead of `Math.ceil` on a float quotient. The average uses exact round-half-up instead of `Math.round` on a float.
- Dates: `new Date(string)` parsing, the clock, `toLocaleDateString` and `Intl.NumberFormat` are not modelled. Expiration and "now" are integer milliseconds, and "no date" is `None`.
- React plumbing: `setState` batching, `useEffect` / `useCallback` scheduling and dependencies, the simulated delay of the supplier page's mock load, `confirm()`, `alert` and `console` are not modelled. Each handler is one atomic step, and confirmation is a boolean parameter.
- Errors that the supplier and category forms' `onSubmit` throws are only logged by the source, so the model drops them.
- API arguments: the arguments the hooks forward to the API are not modelled, because only the outcome of each call enters the model. These are the category and low-stock filters, `safeNumber(categoryId)`, update payloads, and the stock quantity and operation.
- `useIngredientStats` and `useStockAlerts` in use-ingredients.ts follow the same fetch, loading and error pattern as `IngredientStore.Fetch` on other records. They are not modelled separately.
- The API's `Ingredient` and `Recipe` records are not part of this model. Only their ids are read, and a few fields are carried as given.
- The colour picker of the category form (`predefinedColors`, `selectedColor`) and all rendering are presentational and not modelled.
- The backend (bootstrap, middleware, authentication controller), the `novo` and `editar` pages, the sidebar and the layout files are not part of this model.
- No CNPJ check digit is computed, because the source computes none.
