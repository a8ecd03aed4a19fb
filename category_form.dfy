/** The category form (`CategoriaForm`): length rules on the trimmed name and
    description, the change handler, and the suggestion buttons that fill
    both fields at once. */
module CategoryForm {
  import opened Optional
  import opened Text

  datatype Field = Name | Description

  datatype CategoryData = CategoryData(name: string, description: string)

  const NameRequired := "Nome da categoria é obrigatório"
  const NameTooShort := "Nome deve ter pelo menos 2 caracteres"
  const NameTooLong := "Nome deve ter no máximo 50 caracteres"
  const DescriptionTooShort := "Descrição deve ter pelo menos 10 caracteres"

  /** `validateForm`'s `newErrors`: at most one name error, the first of
      blank / shorter than 2 / longer than 50 that applies, and a description
      error when the trimmed description is non-empty but shorter than 10. */
  function Errors(d: CategoryData): map<Field, string>
  {
    var e0: map<Field, string> := map[];
    var e1 := if NameMessage(Trim(d.name)).Some? then e0[Name := NameMessage(Trim(d.name)).value] else e0;
    if DescriptionTooShortFor(Trim(d.description)) then e1[Description := DescriptionTooShort] else e1
  }

  /** The name check on the trimmed name: the first rule broken, if any.
      Lengths are `.length`, in UTF-16 code units. */
  function NameMessage(name: string): Option<string>
  {
    if name == "" then Some(NameRequired)
    else if Utf16Length(name) < 2 then Some(NameTooShort)
    else if Utf16Length(name) > 50 then Some(NameTooLong)
    else None
  }

  /** The description check on the trimmed description. */
  predicate DescriptionTooShortFor(description: string)
  {
    description != "" && Utf16Length(description) < 10
  }

  /** The name passes exactly when its trimmed length in UTF-16 code units is
      between 2 and 50; otherwise the message names the first rule broken. */
  lemma NameRule(d: CategoryData)
    ensures Name !in Errors(d) <==> 2 <= Utf16Length(Trim(d.name)) <= 50
    ensures IsBlank(d.name) ==> Name in Errors(d) && Errors(d)[Name] == NameRequired
    ensures !IsBlank(d.name) && Utf16Length(Trim(d.name)) < 2 ==>
              Name in Errors(d) && Errors(d)[Name] == NameTooShort
    ensures Utf16Length(Trim(d.name)) > 50 ==> Name in Errors(d) && Errors(d)[Name] == NameTooLong
  {
    TrimEmptyIffBlank(d.name);
  }

  /** A blank description passes; a filled one needs at least 10 UTF-16 code
      units once trimmed, and no upper bound is checked. */
  lemma DescriptionRule(d: CategoryData)
    ensures Description in Errors(d) <==> !IsBlank(d.description) && Utf16Length(Trim(d.description)) < 10
    ensures Description in Errors(d) ==> Errors(d)[Description] == DescriptionTooShort
  {
    TrimEmptyIffBlank(d.description);
  }

  /** The form is valid exactly when both rules pass. */
  lemma ValidIff(d: CategoryData)
    ensures Errors(d) == map[] <==>
              2 <= Utf16Length(Trim(d.name)) <= 50 &&
              (IsBlank(d.description) || Utf16Length(Trim(d.description)) >= 10)
    ensures Errors(d).Keys <= {Name, Description}
  {
    NameRule(d);
    DescriptionRule(d);
    var e := Errors(d);
    if Name in e || Description in e {
      assert e != map[];
    }
  }

  /** A character outside the Basic Multilingual Plane counts twice: one such
      character is a long enough name, and 25 of them are the longest name
      that passes. */
  lemma SurrogatePairsCountTwice(c: char, name: string)
    requires c as int > 0xFFFF
    requires |name| == 26 && forall k :: 0 <= k < 26 ==> name[k] == c
    ensures Name !in Errors(CategoryData([c], ""))
    ensures Name !in Errors(CategoryData(name[..25], ""))
    ensures Errors(CategoryData(name, "")) == map[Name := NameTooLong]
  {
    TrimUntouched([c]);
    TrimUntouched(name[..25]);
    TrimUntouched(name);
    Utf16LengthRepeat(c, name[..25]);
    Utf16LengthRepeat(c, name);
  }

  /** `categorySuggestions` */
  const Suggestions: seq<CategoryData> := [
    CategoryData("Bolos", "Bolos tradicionais, bolos de festa, cupcakes"),
    CategoryData("Tortas", "Tortas doces e salgadas, quiches, empadas"),
    CategoryData("Doces", "Brigadeiros, beijinhos, trufas, bombons"),
    CategoryData("Pães", "Pães doces, pães salgados, brioches"),
    CategoryData("Biscoitos", "Cookies, biscoitos decorados, bolachas"),
    CategoryData("Sobremesas", "Pudins, mousses, pavês, gelatinas"),
    CategoryData("Salgados", "Coxinhas, pastéis, esfirras, sanduíches"),
    CategoryData("Bebidas", "Sucos, vitaminas, cafés especiais")
  ]

  /** Every suggestion passes validation as it is filled in. */
  lemma SuggestionsValid()
    ensures forall i :: 0 <= i < |Suggestions| ==> Errors(Suggestions[i]) == map[]
  {
    forall i | 0 <= i < |Suggestions|
      ensures Errors(Suggestions[i]) == map[]
    {
      ValidWhenUntrimmed(Suggestions[i]);
    }
  }

  /** Fields without white space at either end, a name of 2 to 25 characters
      and a description of at least 10 pass whatever their characters. */
  lemma ValidWhenUntrimmed(d: CategoryData)
    requires 2 <= |d.name| <= 25 && !IsSpace(d.name[0]) && !IsSpace(d.name[|d.name| - 1])
    requires |d.description| >= 10 && !IsSpace(d.description[0])
    requires !IsSpace(d.description[|d.description| - 1])
    ensures Errors(d) == map[]
  {
    TrimUntouched(d.name);
    TrimUntouched(d.description);
    ValidIff(d);
  }

  /** `initialData`: either field may be supplied. */
  datatype CategoryDraft = CategoryDraft(name: Option<string>, description: Option<string>)

  class CategoryFormState {
    var data: CategoryData
    var errors: map<Field, string>

    /** Supplied fields, or "" (`initialData?.name || ""`). */
    constructor (init: CategoryDraft)
      ensures data.name == (if init.name.Some? then init.name.value else "")
      ensures data.description == (if init.description.Some? then init.description.value else "")
      ensures errors == map[]
    {
      data := CategoryData(if init.name.Some? then init.name.value else "",
                           if init.description.Some? then init.description.value else "");
      errors := map[];
    }

    /** `validateForm`: replaces the whole error map and reports whether it is empty. */
    method ValidateForm() returns (valid: bool)
      modifies this`errors
      ensures errors == Errors(data)
      ensures valid <==> errors == map[]
    {
      var newErrors: map<Field, string> := map[];
      var name := Trim(data.name);
      if name == "" {
        newErrors := newErrors[Name := NameRequired];
      } else if Utf16Length(name) < 2 {
        newErrors := newErrors[Name := NameTooShort];
      } else if Utf16Length(name) > 50 {
        newErrors := newErrors[Name := NameTooLong];
      }
      var description := Trim(data.description);
      if description != "" && Utf16Length(description) < 10 {
        newErrors := newErrors[Description := DescriptionTooShort];
      }
      errors := newErrors;
      valid := |newErrors.Keys| == 0;
    }

    /** `handleSubmit`: validates, and hands `formData` to `onSubmit` only when
        the form is valid (whatever `onSubmit` throws is only logged). */
    method HandleSubmit() returns (callsOnSubmit: bool)
      modifies this`errors
      ensures errors == Errors(data)
      ensures callsOnSubmit <==> Errors(data) == map[]
    {
      callsOnSubmit := ValidateForm();
    }

    /** `handleInputChange`: sets one field and clears that field's error only. */
    method HandleInputChange(field: Field, value: string)
      modifies this
      ensures field == Name ==> data == old(data).(name := value)
      ensures field == Description ==> data == old(data).(description := value)
      ensures errors == old(errors) - {field}
    {
      if field == Name {
        data := data.(name := value);
      } else {
        data := data.(description := value);
      }
      if field in errors {
        errors := errors - {field};
      }
    }

    /** `handleSuggestionClick`: fills both fields and clears every error. */
    method HandleSuggestionClick(suggestion: CategoryData)
      modifies this
      ensures data == suggestion && errors == map[]
    {
      data := CategoryData(suggestion.name, suggestion.description);
      errors := map[];
    }
  }
}
