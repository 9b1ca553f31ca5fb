/** The stock intake page: a case-insensitive name filter over the catalog, and a
    form that picks a product and a quantity and posts them to `POST /entradaEstoque`.
    The service's answer is the `submitOk` input. */
module StockIntake {
  import opened Wrappers
  import opened Seqs
  import opened Catalog
  import opened Text

  // ---------------------------------------------------------------- the filter

  /** The lowercased product name contains the lowercased search text. */
  predicate Matches(p: Product, search: string) {
    Includes(Lower(p.name), Lower(search))
  }

  /** The products the selector lists: those that match, in catalog order. */
  function FilterByName(products: seq<Product>, search: string): seq<Product> {
    if products == [] then []
    else (if Matches(products[0], search) then [products[0]] else [])
         + FilterByName(products[1..], search)
  }

  /** A product is listed exactly when it is in the catalog and its lowercased name
      contains the lowercased search text somewhere. */
  lemma {:induction false} FilterMembers(products: seq<Product>, search: string)
    ensures forall p :: p in FilterByName(products, search) <==>
              p in products && exists i :: OccursAt(Lower(p.name), Lower(search), i)
  {
    if products != [] {
      FilterMembers(products[1..], search);
      assert products == [products[0]] + products[1..];
      forall p | p in products
        ensures Matches(p, search) <==> exists i :: OccursAt(Lower(p.name), Lower(search), i)
      {
        IncludesIff(Lower(p.name), Lower(search));
      }
    }
  }

  /** The listed products keep their catalog order. */
  lemma {:induction false} FilterIsSubsequence(products: seq<Product>, search: string)
    ensures IsSubsequence(FilterByName(products, search), products)
  {
    if products != [] {
      FilterIsSubsequence(products[1..], search);
      var rest := FilterByName(products[1..], search);
      if Matches(products[0], search) {
        assert ([products[0]] + rest)[1..] == rest;
      } else {
        assert [] + rest == rest;
      }
    }
  }

  /** An empty search lists the whole catalog. */
  lemma {:induction false} EmptySearchKeepsAll(products: seq<Product>)
    ensures FilterByName(products, "") == products
  {
    if products != [] {
      assert Lower("") == "";
      IncludesEmpty(Lower(products[0].name));
      EmptySearchKeepsAll(products[1..]);
      assert [products[0]] + products[1..] == products;
    }
  }

  /** Searches that differ only in letter case list the same products. */
  lemma {:induction false} FilterIgnoresCase(products: seq<Product>, s1: string, s2: string)
    requires Lower(s1) == Lower(s2)
    ensures FilterByName(products, s1) == FilterByName(products, s2)
  {
    if products != [] {
      FilterIgnoresCase(products[1..], s1, s2);
    }
  }

  /** In particular, lowercasing the search first changes nothing. */
  lemma LowercasedSearchSameList(products: seq<Product>, search: string)
    ensures FilterByName(products, Lower(search)) == FilterByName(products, search)
  {
    LowerIdempotent(search);
    FilterIgnoresCase(products, Lower(search), search);
  }

  // ---------------------------------------------------------------- the form

  /** The form's raw texts: `produto` holds `String(idProduto)` or "". */
  datatype IntakeForm = IntakeForm(product: string, quantity: string)

  const BlankIntakeForm := IntakeForm("", "")

  /** The `POST /entradaEstoque` body; a NaN quantity (`None`) is sent as null. */
  datatype IntakePayload = IntakePayload(productId: int, quantity: Option<int>)

  datatype IntakeOutcome =
    | NoProductSelected
    | Recorded(payload: IntakePayload)
    | RecordFailed(payload: IntakePayload)

  /** What `handleSubmit` reports for a form and the service's answer. */
  function IntakeOutcomeOf(form: IntakeForm, submitOk: bool): (r: IntakeOutcome)
    ensures r.NoProductSelected? <==> form.product == "" || NumberValue(form.product).None?
    ensures !r.NoProductSelected? ==>
              Some(r.payload.productId) == NumberValue(form.product)
              && r.payload.quantity == NumberValue(form.quantity)
    ensures r.Recorded? <==> !r.NoProductSelected? && submitOk
  {
    if form.product == "" || NumberValue(form.product).None? then NoProductSelected
    else
      var payload := IntakePayload(NumberValue(form.product).value, NumberValue(form.quantity));
      if submitOk then Recorded(payload) else RecordFailed(payload)
  }

  /** A form whose product was filled in by selecting a catalog product is never
      refused, and the request names exactly that product. */
  lemma SelectedProductIsSent(p: Product, quantity: string, submitOk: bool)
    ensures !IntakeOutcomeOf(IntakeForm(IntToText(p.id), quantity), submitOk).NoProductSelected?
    ensures IntakeOutcomeOf(IntakeForm(IntToText(p.id), quantity), submitOk).payload.productId
            == p.id
  {
    IntToTextRoundTrip(p.id);
  }

  /** With `produto` holding only "" or a number's text, the one refusal is "nothing selected". */
  lemma RefusedOnlyWhenBlank(form: IntakeForm, submitOk: bool)
    requires form.product == "" || IsNumeric(form.product)
    ensures IntakeOutcomeOf(form, submitOk).NoProductSelected? <==> form.product == ""
  {
  }

  class StockIntakePage {
    var form: IntakeForm
    var catalog: seq<Product>
    var search: string
    var isLoading: bool

    /** `produto` is only ever "" or the text of a product id; no request is in flight
        between handlers. */
    ghost predicate Valid()
      reads this
    {
      (form.product == "" || IsNumeric(form.product)) && !isLoading
    }

    constructor ()
      ensures Valid()
      ensures form == BlankIntakeForm && catalog == [] && search == "" && !isLoading
    {
      form := BlankIntakeForm;
      catalog := [];
      search := "";
      isLoading := false;
    }

    /** The list the selector shows. */
    function Listed(): (r: seq<Product>)
      reads this
      ensures search == "" ==> r == catalog
    {
      EmptySearchKeepsAll(catalog);
      FilterByName(catalog, search)
    }

    /** The catalog fetch resolved with `products`. */
    method CatalogLoaded(products: seq<Product>)
      requires Valid()
      modifies this
      ensures Valid()
      ensures catalog == products
      ensures form == old(form) && search == old(search) && isLoading == old(isLoading)
    {
      catalog := products;
    }

    /** The search box changed. */
    method EditSearch(text: string)
      requires Valid()
      modifies this
      ensures Valid()
      ensures search == text
      ensures form == old(form) && catalog == old(catalog) && isLoading == old(isLoading)
    {
      search := text;
    }

    /** The quantity input changed. */
    method EditQuantity(text: string)
      requires Valid()
      modifies this
      ensures Valid()
      ensures form == old(form).(quantity := text)
      ensures catalog == old(catalog) && search == old(search) && isLoading == old(isLoading)
    {
      form := form.(quantity := text);
    }

    /** A listed product was chosen: remember its id as text and clear the search. */
    method SelectProduct(p: Product)
      requires Valid()
      modifies this
      ensures Valid()
      ensures form == old(form).(product := IntToText(p.id)) && search == ""
      ensures catalog == old(catalog) && isLoading == old(isLoading)
    {
      IntToTextRoundTrip(p.id);
      form := form.(product := IntToText(p.id));
      search := "";
    }

    /** `handleSubmit`: refuse a blank or non-numeric product without a request;
        otherwise post, blank the form on success, keep it on failure, and clear
        `isLoading` either way. */
    method Submit(submitOk: bool) returns (outcome: IntakeOutcome)
      requires Valid()
      modifies this
      ensures Valid()
      ensures outcome == IntakeOutcomeOf(old(form), submitOk)
      ensures form == (if outcome.Recorded? then BlankIntakeForm else old(form))
      ensures !isLoading
      ensures catalog == old(catalog) && search == old(search)
    {
      if form.product == "" || NumberValue(form.product).None? {
        return NoProductSelected;
      }
      isLoading := true;
      var payload := IntakePayload(NumberValue(form.product).value, NumberValue(form.quantity));
      if submitOk {
        form := BlankIntakeForm;
        outcome := Recorded(payload);
      } else {
        outcome := RecordFailed(payload);
      }
      isLoading := false;
    }
  }
}
