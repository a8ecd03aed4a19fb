/** The supplier form (`FornecedorForm`): four field checks written as regular
    expressions, two input formatters that strip everything but digits and
    re-insert punctuation, and the form state (`formData`, `errors`) that
    the validation and the change handlers rewrite. */
module SupplierForm {
  import opened Optional
  import opened Text
  import opened Regex

  // ---------------------------------------------------------------------------
  // The three patterns, atom by atom as written in the form.

  /** `^[^\s@]+@[^\s@]+\.[^\s@]+$`, built from its tails (`EmailTail1` is
      everything after `^`, `EmailTail2` everything after the first `[^\s@]+`, ...). */
  const EmailPattern: Pattern := Then(Start, EmailTail1)
  const EmailTail1: Pattern := Then(OneOrMore(NotSpaceNorAt), EmailTail2)
  const EmailTail2: Pattern := Then(Lit('@'), EmailTail3)
  const EmailTail3: Pattern := Then(OneOrMore(NotSpaceNorAt), EmailTail4)
  const EmailTail4: Pattern := Then(Lit('.'), EmailTail5)
  const EmailTail5: Pattern := Then(OneOrMore(NotSpaceNorAt), AtEnd)
  const AtEnd: Pattern := Then(End, Empty)

  /** `^$$\d{2}$$\s\d{4,5}-\d{4}$`: inside a pattern `$$` is two end-of-input
      anchors, so after them `\d{2}` has no character left to consume. */
  const PhonePattern: Pattern := Then(Start, PhoneTail1)
  const PhoneTail1: Pattern := Then(End, Then(End, PhoneTail3))
  const PhoneTail3: Pattern := Then(Exactly(Digit, 2), PhoneTail4)
  const PhoneTail4: Pattern :=
    Then(End, Then(End, Then(Exactly(Space, 1),
    Then(Repeat(Digit, 4, AtMost(5)), Then(Lit('-'), Then(Exactly(Digit, 4), AtEnd))))))

  /** `^\d{2}\.\d{3}\.\d{3}\/\d{4}-\d{2}$`, built from its tails. */
  const CnpjPattern: Pattern := Then(Start, CnpjTail1)
  const CnpjTail1: Pattern := Then(Exactly(Digit, 2), CnpjTail2)
  const CnpjTail2: Pattern := Then(Lit('.'), CnpjTail3)
  const CnpjTail3: Pattern := Then(Exactly(Digit, 3), CnpjTail4)
  const CnpjTail4: Pattern := Then(Lit('.'), CnpjTail5)
  const CnpjTail5: Pattern := Then(Exactly(Digit, 3), CnpjTail6)
  const CnpjTail6: Pattern := Then(Lit('/'), CnpjTail7)
  const CnpjTail7: Pattern := Then(Exactly(Digit, 4), CnpjTail8)
  const CnpjTail8: Pattern := Then(Lit('-'), CnpjTail9)
  const CnpjTail9: Pattern := Then(Exactly(Digit, 2), AtEnd)

  // ---------------------------------------------------------------------------
  // What the patterns accept, stated without regular expressions.

  /** No white space anywhere; exactly one '@', with something before it; and a
      '.' in the part after the '@' that is neither that part's first nor its
      last character. */
  predicate EmailShape(s: string)
  {
    (forall k :: 0 <= k < |s| ==> !IsSpace(s[k])) &&
    exists a, d :: 0 < a && a + 1 < d < |s| - 1 && s[a] == '@' && s[d] == '.' &&
      forall k :: 0 <= k < |s| && k != a ==> s[k] != '@'
  }

  /** The layout DD.DDD.DDD/DDDD-DD, 18 characters; no check digit is computed. */
  predicate CnpjShape(s: string)
  {
    |s| == 18 && s[2] == '.' && s[6] == '.' && s[10] == '/' && s[15] == '-' &&
    forall k :: 0 <= k < 18 && k != 2 && k != 6 && k != 10 && k != 15 ==> IsDigit(s[k])
  }

  /** The email pattern matches exactly the strings of `EmailShape`. */
  lemma EmailPatternIff(s: string)
    ensures Test(EmailPattern, s) <==> EmailShape(s)
  {
    TestAnchored(EmailTail1, s);
    if MatchAt(EmailTail1, s, 0) {
      EmailMatchHasShape(s);
    }
    if EmailShape(s) {
      EmailShapeMatches(s);
    }
  }

  lemma EmailMatchHasShape(s: string)
    requires MatchAt(EmailTail1, s, 0)
    ensures EmailShape(s)
  {
    var j1 :| 1 <= j1 <= |s| && Run(NotSpaceNorAt, s, 0, j1) && MatchAt(EmailTail2, s, j1);
    var j2 :| j1 + 1 <= j2 <= |s| && j2 - j1 <= 1 && Run(Literal('@'), s, j1, j2) && MatchAt(EmailTail3, s, j2);
    var j3 :| j2 + 1 <= j3 <= |s| && Run(NotSpaceNorAt, s, j2, j3) && MatchAt(EmailTail4, s, j3);
    var j4 :| j3 + 1 <= j4 <= |s| && j4 - j3 <= 1 && Run(Literal('.'), s, j3, j4) && MatchAt(EmailTail5, s, j4);
    var j5 :| j4 + 1 <= j5 <= |s| && Run(NotSpaceNorAt, s, j4, j5) && MatchAt(AtEnd, s, j5);
    assert j2 == j1 + 1 && j4 == j3 + 1 && j5 == |s|;
    assert s[j1] == '@' && s[j3] == '.';
    forall k | 0 <= k < |s|
      ensures !IsSpace(s[k]) && (k != j1 ==> s[k] != '@')
    {
      if k < j1 {
        assert InClass(NotSpaceNorAt, s[k]);
      } else if j2 <= k < j3 {
        assert InClass(NotSpaceNorAt, s[k]);
      } else if j4 <= k {
        assert InClass(NotSpaceNorAt, s[k]);
      }
    }
  }

  lemma EmailShapeMatches(s: string)
    requires EmailShape(s)
    ensures MatchAt(EmailTail1, s, 0)
  {
    var a, d :| 0 < a && a + 1 < d < |s| - 1 && s[a] == '@' && s[d] == '.' &&
      forall k :: 0 <= k < |s| && k != a ==> s[k] != '@';
    assert MatchAt(AtEnd, s, |s|);
    assert Run(NotSpaceNorAt, s, d + 1, |s|);
    assert MatchAt(EmailTail5, s, d + 1);
    assert Run(Literal('.'), s, d, d + 1);
    assert MatchAt(EmailTail4, s, d);
    assert Run(NotSpaceNorAt, s, a + 1, d);
    assert MatchAt(EmailTail3, s, a + 1);
    assert Run(Literal('@'), s, a, a + 1);
    assert MatchAt(EmailTail2, s, a);
    assert Run(NotSpaceNorAt, s, 0, a);
  }

  /** The phone pattern matches no string at all. */
  lemma PhonePatternMatchesNothing(s: string)
    ensures !Test(PhonePattern, s)
  {
    TestAnchored(PhoneTail1, s);
    NoRoomAfterEnd(Digit, 2, PhoneTail4, s);
  }

  /** The CNPJ pattern matches exactly the strings of `CnpjShape`. */
  lemma CnpjPatternIff(s: string)
    ensures Test(CnpjPattern, s) <==> CnpjShape(s)
  {
    TestAnchored(CnpjTail1, s);
    if MatchAt(CnpjTail1, s, 0) {
      CnpjMatchHasShape(s);
    }
    if CnpjShape(s) {
      CnpjShapeMatches(s);
    }
  }

  lemma CnpjMatchHasShape(s: string)
    requires MatchAt(CnpjTail1, s, 0)
    ensures CnpjShape(s)
  {
    ExactlyStep(Digit, 2, CnpjTail2, s, 0);
    ExactlyStep(Literal('.'), 1, CnpjTail3, s, 2);
    ExactlyStep(Digit, 3, CnpjTail4, s, 3);
    ExactlyStep(Literal('.'), 1, CnpjTail5, s, 6);
    ExactlyStep(Digit, 3, CnpjTail6, s, 7);
    ExactlyStep(Literal('/'), 1, CnpjTail7, s, 10);
    ExactlyStep(Digit, 4, CnpjTail8, s, 11);
    ExactlyStep(Literal('-'), 1, CnpjTail9, s, 15);
    ExactlyStep(Digit, 2, AtEnd, s, 16);
    assert |s| == 18;
  }

  lemma CnpjShapeMatches(s: string)
    requires CnpjShape(s)
    ensures MatchAt(CnpjTail1, s, 0)
  {
    assert MatchAt(CnpjTail9, s, 16) by {
      assert MatchAt(AtEnd, s, 18);
      assert Run(Digit, s, 16, 18);
      ExactlyStep(Digit, 2, AtEnd, s, 16);
    }
    assert MatchAt(CnpjTail8, s, 15) by {
      assert Run(Literal('-'), s, 15, 16);
      ExactlyStep(Literal('-'), 1, CnpjTail9, s, 15);
    }
    assert MatchAt(CnpjTail7, s, 11) by {
      assert Run(Digit, s, 11, 15);
      ExactlyStep(Digit, 4, CnpjTail8, s, 11);
    }
    assert MatchAt(CnpjTail6, s, 10) by {
      assert Run(Literal('/'), s, 10, 11);
      ExactlyStep(Literal('/'), 1, CnpjTail7, s, 10);
    }
    assert MatchAt(CnpjTail5, s, 7) by {
      assert Run(Digit, s, 7, 10);
      ExactlyStep(Digit, 3, CnpjTail6, s, 7);
    }
    assert MatchAt(CnpjTail4, s, 6) by {
      assert Run(Literal('.'), s, 6, 7);
      ExactlyStep(Literal('.'), 1, CnpjTail5, s, 6);
    }
    assert MatchAt(CnpjTail3, s, 3) by {
      assert Run(Digit, s, 3, 6);
      ExactlyStep(Digit, 3, CnpjTail4, s, 3);
    }
    assert MatchAt(CnpjTail2, s, 2) by {
      assert Run(Literal('.'), s, 2, 3);
      ExactlyStep(Literal('.'), 1, CnpjTail3, s, 2);
    }
    assert Run(Digit, s, 0, 2);
    ExactlyStep(Digit, 2, CnpjTail2, s, 0);
  }

  // ---------------------------------------------------------------------------
  // The input formatters.

  /** `formatPhone`: the digits of `value`; exactly ten are laid out as
      (DD) DDDD-DDDD, eleven or more have their first eleven laid out as
      (DD) DDDDD-DDDD followed by the rest, and fewer than ten are left bare
      because the replacement pattern finds no match. */
  function FormatPhone(value: string): string
  {
    var n := Digits(value);
    if |n| <= 10 then
      (if |n| == 10 then "(" + n[..2] + ") " + n[2..6] + "-" + n[6..10] else n)
    else
      "(" + n[..2] + ") " + n[2..7] + "-" + n[7..11] + n[11..]
  }

  /** `formatCNPJ`: the digits of `value`; with fourteen or more, the first
      fourteen are laid out as DD.DDD.DDD/DDDD-DD followed by the rest. */
  function FormatCnpj(value: string): string
  {
    var n := Digits(value);
    if |n| >= 14 then
      n[..2] + "." + n[2..5] + "." + n[5..8] + "/" + n[8..12] + "-" + n[12..14] + n[14..]
    else n
  }

  /** `r` is a phone layout "(DD) " then digits with one '-' at position `dash`. */
  predicate PhoneLayout(r: string, dash: nat)
  {
    4 < dash < |r| && r[0] == '(' && r[3] == ')' && r[4] == ' ' && r[dash] == '-' &&
    forall k :: 0 <= k < |r| && k != 0 && k != 3 && k != 4 && k != dash ==> IsDigit(r[k])
  }

  /** Appending digits appends them to the extracted digits. */
  lemma DigitsThenDigits(x: string, y: string)
    requires AllDigits(y)
    ensures Digits(x + y) == Digits(x) + y
  {
    DigitsAppend(x, y);
    DigitsOfDigits(y);
  }

  /** Appending a piece of punctuation leaves the extracted digits unchanged. */
  lemma DigitsThenMark(x: string, y: string)
    requires |y| <= 2 && forall k :: 0 <= k < |y| ==> !IsDigit(y[k])
    ensures Digits(x + y) == Digits(x)
  {
    DigitsAppend(x, y);
    if |y| == 2 {
      assert y[1..][1..] == [];
    }
  }

  /** The phone formatter only inserts punctuation: its digits are the input's. */
  lemma FormatPhoneKeepsDigits(value: string)
    ensures Digits(FormatPhone(value)) == Digits(value)
  {
    var n := Digits(value);
    if |n| == 10 {
      DigitsThenDigits("(", n[..2]);
      DigitsThenMark("(" + n[..2], ") ");
      DigitsThenDigits("(" + n[..2] + ") ", n[2..6]);
      DigitsThenMark("(" + n[..2] + ") " + n[2..6], "-");
      DigitsThenDigits("(" + n[..2] + ") " + n[2..6] + "-", n[6..10]);
      assert n[..2] + n[2..6] + n[6..10] == n;
    } else if |n| > 10 {
      DigitsThenDigits("(", n[..2]);
      DigitsThenMark("(" + n[..2], ") ");
      DigitsThenDigits("(" + n[..2] + ") ", n[2..7]);
      DigitsThenMark("(" + n[..2] + ") " + n[2..7], "-");
      DigitsThenDigits("(" + n[..2] + ") " + n[2..7] + "-", n[7..11]);
      DigitsThenDigits("(" + n[..2] + ") " + n[2..7] + "-" + n[7..11], n[11..]);
      assert n[..2] + n[2..7] + n[7..11] + n[11..] == n;
    } else {
      DigitsOfDigits(n);
    }
  }

  /** Formatting an already formatted phone changes nothing. */
  lemma FormatPhoneIdempotent(value: string)
    ensures FormatPhone(FormatPhone(value)) == FormatPhone(value)
  {
    FormatPhoneKeepsDigits(value);
  }

  /** The layouts the phone formatter produces, by number of digits. */
  lemma FormatPhoneLayout(value: string)
    ensures |Digits(value)| < 10 ==> FormatPhone(value) == Digits(value)
    ensures |Digits(value)| == 10 ==> |FormatPhone(value)| == 14 && PhoneLayout(FormatPhone(value), 9)
    ensures |Digits(value)| > 10 ==>
              |FormatPhone(value)| == |Digits(value)| + 4 && PhoneLayout(FormatPhone(value), 10)
  {
    var n := Digits(value);
    var r := FormatPhone(value);
    if |n| == 10 {
      forall k | 0 <= k < |r| && k != 0 && k != 3 && k != 4 && k != 9
        ensures IsDigit(r[k])
      {
        if k < 3 { assert r[k] == n[k - 1]; }
        else if k < 9 { assert r[k] == n[k - 3]; }
        else { assert r[k] == n[k - 4]; }
      }
    } else if |n| > 10 {
      forall k | 0 <= k < |r| && k != 0 && k != 3 && k != 4 && k != 10
        ensures IsDigit(r[k])
      {
        if k < 3 { assert r[k] == n[k - 1]; }
        else if k < 10 { assert r[k] == n[k - 3]; }
        else { assert r[k] == n[k - 4]; }
      }
    }
  }

  /** The CNPJ formatter only inserts punctuation: its digits are the input's. */
  lemma FormatCnpjKeepsDigits(value: string)
    ensures Digits(FormatCnpj(value)) == Digits(value)
  {
    var n := Digits(value);
    if |n| >= 14 {
      DigitsOfDigits(n[..2]);
      DigitsThenMark(n[..2], ".");
      DigitsThenDigits(n[..2] + ".", n[2..5]);
      DigitsThenMark(n[..2] + "." + n[2..5], ".");
      DigitsThenDigits(n[..2] + "." + n[2..5] + ".", n[5..8]);
      DigitsThenMark(n[..2] + "." + n[2..5] + "." + n[5..8], "/");
      DigitsThenDigits(n[..2] + "." + n[2..5] + "." + n[5..8] + "/", n[8..12]);
      DigitsThenMark(n[..2] + "." + n[2..5] + "." + n[5..8] + "/" + n[8..12], "-");
      DigitsThenDigits(n[..2] + "." + n[2..5] + "." + n[5..8] + "/" + n[8..12] + "-", n[12..14]);
      DigitsThenDigits(n[..2] + "." + n[2..5] + "." + n[5..8] + "/" + n[8..12] + "-" + n[12..14], n[14..]);
      assert n[..2] + n[2..5] + n[5..8] + n[8..12] + n[12..14] + n[14..] == n;
    } else {
      DigitsOfDigits(n);
    }
  }

  /** `r` is the CNPJ layout: '.', '.', '/' and '-' at 2, 6, 10 and 15 and digits elsewhere. */
  predicate CnpjLayout(r: string)
  {
    |r| >= 18 && r[2] == '.' && r[6] == '.' && r[10] == '/' && r[15] == '-' &&
    forall k :: 0 <= k < |r| && k != 2 && k != 6 && k != 10 && k != 15 ==> IsDigit(r[k])
  }

  /** The layouts the CNPJ formatter produces: bare digits below fourteen,
      punctuated from fourteen on. */
  lemma FormatCnpjLayout(value: string)
    ensures |Digits(value)| < 14 ==> FormatCnpj(value) == Digits(value)
    ensures |Digits(value)| >= 14 ==>
              |FormatCnpj(value)| == |Digits(value)| + 4 && CnpjLayout(FormatCnpj(value))
  {
    var n := Digits(value);
    var r := FormatCnpj(value);
    if |n| >= 14 {
      forall k | 0 <= k < |r| && k != 2 && k != 6 && k != 10 && k != 15
        ensures IsDigit(r[k])
      {
        if k < 2 { assert r[k] == n[k]; }
        else if k < 6 { assert r[k] == n[k - 1]; }
        else if k < 10 { assert r[k] == n[k - 2]; }
        else if k < 15 { assert r[k] == n[k - 3]; }
        else { assert r[k] == n[k - 4]; }
      }
    }
  }

  /** Formatting an already formatted CNPJ changes nothing. */
  lemma FormatCnpjIdempotent(value: string)
    ensures FormatCnpj(FormatCnpj(value)) == FormatCnpj(value)
  {
    FormatCnpjKeepsDigits(value);
  }

  // ---------------------------------------------------------------------------
  // Field checks and the error map.

  datatype Field = Name | Email | Phone | Address | Cnpj | IsActive

  datatype SupplierData = SupplierData(
    name: string, email: string, phone: string, address: string, cnpj: string, isActive: bool)

  const NameRequired := "Nome é obrigatório"
  const EmailInvalid := "Email inválido"
  const PhoneFormat := "Formato: (11) 99999-9999"
  const CnpjFormat := "Formato: 12.345.678/0001-90"

  /** An empty field is not checked; a filled one must match its pattern. */
  predicate EmailOk(email: string) { email == "" || Test(EmailPattern, email) }
  predicate PhoneOk(phone: string) { phone == "" || Test(PhonePattern, phone) }
  predicate CnpjOk(cnpj: string) { cnpj == "" || Test(CnpjPattern, cnpj) }

  /** `validateForm`'s `newErrors`, filled check by check. */
  function Errors(d: SupplierData): map<Field, string>
  {
    var e1: map<Field, string> := if Trim(d.name) == "" then map[Name := NameRequired] else map[];
    var e2 := if !EmailOk(d.email) then e1[Email := EmailInvalid] else e1;
    var e3 := if !PhoneOk(d.phone) then e2[Phone := PhoneFormat] else e2;
    if !CnpjOk(d.cnpj) then e3[Cnpj := CnpjFormat] else e3
  }

  /** Which fields get an error, stated without patterns: a blank name; a
      non-empty email not of `EmailShape`; ANY non-empty phone; a non-empty
      CNPJ not of `CnpjShape`. The address and the active flag are never
      checked, and the form is valid exactly when none of these fire. */
  lemma ErrorsMeaning(d: SupplierData)
    ensures Name in Errors(d) <==> IsBlank(d.name)
    ensures Email in Errors(d) <==> d.email != "" && !EmailShape(d.email)
    ensures Phone in Errors(d) <==> d.phone != ""
    ensures Cnpj in Errors(d) <==> d.cnpj != "" && !CnpjShape(d.cnpj)
    ensures Address !in Errors(d) && IsActive !in Errors(d)
    ensures Errors(d) == map[] <==>
              !IsBlank(d.name) && (d.email == "" || EmailShape(d.email)) &&
              d.phone == "" && (d.cnpj == "" || CnpjShape(d.cnpj))
  {
    ErrorKeys(d);
    TrimEmptyIffBlank(d.name);
    EmailPatternIff(d.email);
    PhonePatternMatchesNothing(d.phone);
    CnpjPatternIff(d.cnpj);
  }

  lemma ErrorKeys(d: SupplierData)
    ensures Name in Errors(d) <==> Trim(d.name) == ""
    ensures Email in Errors(d) <==> !EmailOk(d.email)
    ensures Phone in Errors(d) <==> !PhoneOk(d.phone)
    ensures Cnpj in Errors(d) <==> !CnpjOk(d.cnpj)
    ensures Address !in Errors(d) && IsActive !in Errors(d)
    ensures Errors(d) == map[] <==>
              Trim(d.name) != "" && EmailOk(d.email) && PhoneOk(d.phone) && CnpjOk(d.cnpj)
  {
    var e := Errors(d);
    if Name in e || Email in e || Phone in e || Cnpj in e {
      assert e != map[];
    }
  }

  /** Each error carries its field's fixed message. */
  lemma ErrorMessages(d: SupplierData)
    ensures Name in Errors(d) ==> Errors(d)[Name] == NameRequired
    ensures Email in Errors(d) ==> Errors(d)[Email] == EmailInvalid
    ensures Phone in Errors(d) ==> Errors(d)[Phone] == PhoneFormat
    ensures Cnpj in Errors(d) ==> Errors(d)[Cnpj] == CnpjFormat
  {
  }

  /** Whatever the phone formatter produced from input with at least one digit
      is rejected on validation, so the phone field can only pass when empty. */
  lemma FormattedPhoneRejected(d: SupplierData, value: string)
    ensures Phone in Errors(d.(phone := FormatPhone(value))) <==> Digits(value) != ""
  {
    ErrorsMeaning(d.(phone := FormatPhone(value)));
    FormatPhoneKeepsDigits(value);
    if Digits(value) == "" {
      assert FormatPhone(value) == "";
    }
  }

  /** The CNPJ formatter's output passes the CNPJ check exactly when the input
      held no digit or exactly fourteen. */
  lemma FormatCnpjAccepted(value: string)
    ensures CnpjOk(FormatCnpj(value)) <==> |Digits(value)| == 0 || |Digits(value)| == 14
  {
    var n := Digits(value);
    var r := FormatCnpj(value);
    CnpjPatternIff(r);
    if |n| == 14 {
      assert r[2] == '.' && r[6] == '.' && r[10] == '/' && r[15] == '-';
      forall k | 0 <= k < 18 && k != 2 && k != 6 && k != 10 && k != 15
        ensures IsDigit(r[k])
      {
        if k < 2 { assert r[k] == n[k]; }
        else if k < 6 { assert r[k] == n[k - 1]; }
        else if k < 10 { assert r[k] == n[k - 2]; }
        else if k < 15 { assert r[k] == n[k - 3]; }
        else { assert r[k] == n[k - 4]; }
      }
      assert CnpjShape(r);
    } else if |n| > 14 {
      assert |r| == |n| + 4;
    }
  }

  // ---------------------------------------------------------------------------
  // The form state.

  /** `initialData`: any subset of the fields. */
  datatype SupplierDraft = SupplierDraft(
    name: Option<string>, email: Option<string>, phone: Option<string>,
    address: Option<string>, cnpj: Option<string>, isActive: Option<bool>)

  /** `x || ""` */
  function OrEmpty(x: Option<string>): string
  {
    if x.Some? then x.value else ""
  }

  /** The first `formData`: supplied text fields or "", supplied flag or true. */
  function InitialData(init: SupplierDraft): SupplierData
  {
    SupplierData(OrEmpty(init.name), OrEmpty(init.email), OrEmpty(init.phone),
                 OrEmpty(init.address), OrEmpty(init.cnpj),
                 if init.isActive.Some? then init.isActive.value else true)
  }

  /** A value passed to `handleInputChange`: text for the inputs, a flag for the checkbox. */
  datatype FieldValue = Str(s: string) | Flag(b: bool)

  /** The change handlers pass text to the text fields and a flag to `isActive`. */
  predicate Accepts(f: Field, v: FieldValue)
  {
    (f == IsActive) == v.Flag?
  }

  /** `formData[f]` */
  function Get(d: SupplierData, f: Field): FieldValue
  {
    match f
    case Name => Str(d.name)
    case Email => Str(d.email)
    case Phone => Str(d.phone)
    case Address => Str(d.address)
    case Cnpj => Str(d.cnpj)
    case IsActive => Flag(d.isActive)
  }

  /** `{ ...d, [f]: v }` */
  function Set(d: SupplierData, f: Field, v: FieldValue): SupplierData
    requires Accepts(f, v)
  {
    match f
    case Name => d.(name := v.s)
    case Email => d.(email := v.s)
    case Phone => d.(phone := v.s)
    case Address => d.(address := v.s)
    case Cnpj => d.(cnpj := v.s)
    case IsActive => d.(isActive := v.b)
  }

  /** Setting one field gives it the new value and leaves every other field as it was. */
  lemma SetChangesOnlyField(d: SupplierData, f: Field, v: FieldValue, g: Field)
    requires Accepts(f, v)
    ensures Get(Set(d, f, v), g) == (if g == f then v else Get(d, g))
  {
  }

  class SupplierFormState {
    var data: SupplierData
    var errors: map<Field, string>

    constructor (init: SupplierDraft)
      ensures data == InitialData(init) && errors == map[]
    {
      data := InitialData(init);
      errors := map[];
    }

    /** `validateForm`: replaces the whole error map and reports whether it is empty. */
    method ValidateForm() returns (valid: bool)
      modifies this`errors
      ensures errors == Errors(data)
      ensures valid <==> errors == map[]
    {
      var newErrors: map<Field, string> := map[];
      if Trim(data.name) == "" {
        newErrors := newErrors[Name := NameRequired];
      }
      if data.email != "" && !Test(EmailPattern, data.email) {
        newErrors := newErrors[Email := EmailInvalid];
      }
      if data.phone != "" && !Test(PhonePattern, data.phone) {
        newErrors := newErrors[Phone := PhoneFormat];
      }
      if data.cnpj != "" && !Test(CnpjPattern, data.cnpj) {
        newErrors := newErrors[Cnpj := CnpjFormat];
      }
      errors := newErrors;
      valid := |newErrors.Keys| == 0;
    }

    /** `handleSubmit`: validates, and hands `formData` to `onSubmit` only when
        the form is valid (whatever `onSubmit` throws is only logged). */
    method HandleSubmit() returns (callsOnSubmit: bool)
      modifies this`errors
      ensures errors == Errors(data)
      ensures callsOnSubmit <==> Errors(data) == map[]
    {
      callsOnSubmit := ValidateForm();
    }

    /** `handleInputChange`: sets one field and clears that field's error only. */
    method HandleInputChange(field: Field, value: FieldValue)
      requires Accepts(field, value)
      modifies this
      ensures data == Set(old(data), field, value)
      ensures errors == old(errors) - {field}
    {
      data := Set(data, field, value);
      if field in errors {
        errors := errors - {field};
      }
    }

    /** `handlePhoneChange`: stores the formatted phone. */
    method HandlePhoneChange(value: string)
      modifies this
      ensures data == old(data).(phone := FormatPhone(value))
      ensures errors == old(errors) - {Phone}
    {
      HandleInputChange(Phone, Str(FormatPhone(value)));
    }

    /** `handleCNPJChange`: stores the formatted CNPJ. */
    method HandleCnpjChange(value: string)
      modifies this
      ensures data == old(data).(cnpj := FormatCnpj(value))
      ensures errors == old(errors) - {Cnpj}
    {
      HandleInputChange(Cnpj, Str(FormatCnpj(value)));
    }
  }
}
