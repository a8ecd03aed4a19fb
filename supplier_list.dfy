/** The supplier list page (`FornecedorPage`): the search filter, the delete
    handler's list update, the label lookups, the active / inactive counts and
    the conditions under which the PIX and document badges appear. */
module SupplierList {
  import opened Optional
  import opened Text
  import opened Lists

  datatype Supplier = Supplier(
    id: string, name: string, email: Option<string>, documentType: string,
    document: Option<string>, paymentMethod: string, pixKey: Option<string>, isActive: bool)

  // ---------------------------------------------------------------------------
  // Search.

  /** The search callback: the lowered name includes the lowered term, or the
      email is present and its lowered form includes the lowered term, or the
      document is present and includes the term as typed. */
  predicate MatchesSearch(f: Supplier, term: string)
  {
    Contains(Lower(f.name), Lower(term)) ||
    (f.email.Some? && Contains(Lower(f.email.value), Lower(term))) ||
    (f.document.Some? && Contains(f.document.value, term))
  }

  /** `filteredFornecedores` */
  function Search(suppliers: seq<Supplier>, term: string): seq<Supplier>
  {
    Filter(suppliers, (f: Supplier) => MatchesSearch(f, term))
  }

  /** The search keeps exactly the suppliers that match, in the list's order. */
  lemma SearchSpec(suppliers: seq<Supplier>, term: string)
    ensures forall f :: f in Search(suppliers, term) <==> f in suppliers && MatchesSearch(f, term)
    ensures IsSubsequence(Search(suppliers, term), suppliers)
    ensures forall f :: multiset(Search(suppliers, term))[f] ==
              (if MatchesSearch(f, term) then multiset(suppliers)[f] else 0)
  {
    FilterIsSubsequence(suppliers, (f: Supplier) => MatchesSearch(f, term));
  }

  /** An empty search box shows every supplier. */
  lemma SearchEmptyTermKeepsAll(suppliers: seq<Supplier>)
    ensures Search(suppliers, "") == suppliers
  {
    forall f | f in suppliers
      ensures MatchesSearch(f, "")
    {
      ContainsEmpty(Lower(f.name));
    }
    FilterKeepsAll(suppliers, (f: Supplier) => MatchesSearch(f, ""));
  }

  /** Name and email are compared in lower case, so for a supplier without a
      document the case of the term does not matter. */
  lemma SearchIgnoresCaseWithoutDocument(f: Supplier, term: string)
    requires f.document.None?
    ensures MatchesSearch(f, term) <==> MatchesSearch(f, Lower(term))
  {
    LowerIdempotent(term);
  }

  // ---------------------------------------------------------------------------
  // Delete.

  /** `fornecedores.filter((f) => f.id !== id)` */
  function WithoutId(suppliers: seq<Supplier>, id: string): seq<Supplier>
  {
    RemoveById(suppliers, SupplierId, id)
  }

  function SupplierId(f: Supplier): string
  {
    f.id
  }

  /** Deleting removes every supplier with that id, keeps the others in order,
      and leaves the list as it was when no supplier has the id. */
  lemma WithoutIdSpec(suppliers: seq<Supplier>, id: string)
    ensures forall f :: f in WithoutId(suppliers, id) <==> f in suppliers && f.id != id
    ensures IsSubsequence(WithoutId(suppliers, id), suppliers)
    ensures (forall f :: f in suppliers ==> f.id != id) <==> WithoutId(suppliers, id) == suppliers
    ensures forall f :: multiset(WithoutId(suppliers, id))[f] == (if f.id != id then multiset(suppliers)[f] else 0)
  {
    RemoveByIdSpec(suppliers, SupplierId, id);
  }

  // ---------------------------------------------------------------------------
  // Counts.

  function ActiveCount(suppliers: seq<Supplier>): nat
  {
    |Filter(suppliers, (f: Supplier) => f.isActive)|
  }

  function InactiveCount(suppliers: seq<Supplier>): nat
  {
    |Filter(suppliers, (f: Supplier) => !f.isActive)|
  }

  /** The active and inactive cards add up to the total card. */
  lemma CountsAddUp(suppliers: seq<Supplier>)
    ensures ActiveCount(suppliers) + InactiveCount(suppliers) == |suppliers|
  {
    FilterSplit(suppliers, (f: Supplier) => f.isActive, (f: Supplier) => !f.isActive);
  }

  // ---------------------------------------------------------------------------
  // Labels and badges.

  const PaymentMethods: map<string, string> := map[
    "dinheiro" := "Dinheiro", "cartao" := "Cartão", "pix" := "PIX",
    "transferencia" := "Transferência", "boleto" := "Boleto"]

  const DocumentTypes: map<string, string> := map[
    "cpf" := "CPF", "cnpj" := "CNPJ", "none" := "Não informado"]

  /** `table[key] || key`: the entry when there is a non-empty one, else the key itself. */
  function LookupOr(table: map<string, string>, key: string): string
  {
    if key in table && table[key] != "" then table[key] else key
  }

  /** `getPaymentMethodLabel` */
  function PaymentMethodLabel(paymentMethod: string): string
  {
    LookupOr(PaymentMethods, paymentMethod)
  }

  /** `getDocumentLabel` */
  function DocumentLabel(documentType: string): string
  {
    LookupOr(DocumentTypes, documentType)
  }

  /** The five methods get their labels; anything else is shown as it is. */
  lemma PaymentMethodLabelSpec(paymentMethod: string)
    ensures PaymentMethodLabel("dinheiro") == "Dinheiro"
    ensures PaymentMethodLabel("cartao") == "Cartão"
    ensures PaymentMethodLabel("pix") == "PIX"
    ensures PaymentMethodLabel("transferencia") == "Transferência"
    ensures PaymentMethodLabel("boleto") == "Boleto"
    ensures paymentMethod !in {"dinheiro", "cartao", "pix", "transferencia", "boleto"} ==>
              PaymentMethodLabel(paymentMethod) == paymentMethod
  {
  }

  /** The three document types get their labels; anything else is shown as it is. */
  lemma DocumentLabelSpec(documentType: string)
    ensures DocumentLabel("cpf") == "CPF"
    ensures DocumentLabel("cnpj") == "CNPJ"
    ensures DocumentLabel("none") == "Não informado"
    ensures documentType !in {"cpf", "cnpj", "none"} ==> DocumentLabel(documentType) == documentType
  {
  }

  /** `fornecedor.paymentMethod === "pix" && fornecedor.pixKey`: a present, non-empty key. */
  predicate ShowsPixBadge(f: Supplier)
  {
    f.paymentMethod == "pix" && f.pixKey.Some? && f.pixKey.value != ""
  }

  /** `fornecedor.documentType !== "none"` */
  predicate ShowsDocumentBadge(f: Supplier)
  {
    f.documentType != "none"
  }

  /** A PIX badge goes only with the "PIX" label and never with a missing or
      empty key; a supplier without a document badge is labelled "Não informado". */
  lemma BadgesSpec(f: Supplier)
    ensures ShowsPixBadge(f) ==> PaymentMethodLabel(f.paymentMethod) == "PIX"
    ensures f.pixKey.None? || f.pixKey == Some("") ==> !ShowsPixBadge(f)
    ensures !ShowsDocumentBadge(f) ==> DocumentLabel(f.documentType) == "Não informado"
  {
    PaymentMethodLabelSpec(f.paymentMethod);
    DocumentLabelSpec(f.documentType);
  }

  // ---------------------------------------------------------------------------
  // The page's mock list.

  const Fixture: seq<Supplier> := [
    Supplier("1", "Moinho São Paulo", Some("contato@moinhosp.com.br"), "cnpj",
             Some("12.345.678/0001-90"), "pix", Some("12.345.678/0001-90"), true),
    Supplier("2", "Chocolates Premium", Some("vendas@chocolatespremium.com"), "cnpj",
             Some("98.765.432/0001-10"), "transferencia", None, true),
    Supplier("3", "João Silva", Some("joao@email.com"), "cpf",
             Some("123.456.789-00"), "dinheiro", None, false)
  ]

  /** On the mock list two suppliers are active and one inactive, only the
      first shows the PIX badge, and every one shows a document badge. */
  lemma FixtureFigures()
    ensures ActiveCount(Fixture) == 2 && InactiveCount(Fixture) == 1
    ensures ShowsPixBadge(Fixture[0]) && !ShowsPixBadge(Fixture[1]) && !ShowsPixBadge(Fixture[2])
    ensures forall i :: 0 <= i < |Fixture| ==> ShowsDocumentBadge(Fixture[i])
  {
    FixtureCounts();
  }

  lemma FixtureCounts()
    ensures ActiveCount(Fixture) == 2 && InactiveCount(Fixture) == 1
  {
    assert Fixture[1..][1..][1..] == [];
  }

  class SupplierPage {
    var suppliers: seq<Supplier>
    var loading: bool
    var searchTerm: string

    constructor ()
      ensures suppliers == [] && loading && searchTerm == ""
    {
      suppliers := [];
      loading := true;
      searchTerm := "";
    }

    /** The end of the initial load: the list is set and loading stops. */
    method Loaded(list: seq<Supplier>)
      modifies this`suppliers, this`loading
      ensures suppliers == list && !loading
    {
      suppliers := list;
      loading := false;
    }

    method SetSearchTerm(term: string)
      modifies this`searchTerm
      ensures searchTerm == term
    {
      searchTerm := term;
    }

    /** `handleDelete`: with the dialog confirmed the supplier's id leaves the
        list; declined, nothing changes. */
    method HandleDelete(id: string, confirmed: bool)
      modifies this`suppliers
      ensures confirmed ==> suppliers == WithoutId(old(suppliers), id)
      ensures !confirmed ==> suppliers == old(suppliers)
    {
      if confirmed {
        suppliers := WithoutId(suppliers, id);
      }
    }
  }
}
