/** The sales page: a cart of lines built from an entry form and the product
    catalog, its running total, and checkout against the catalog's stock figures.
    Money is integer cents. The order service's answer is the `submitOk` input. */
module Sales {
  import opened Wrappers
  import opened Seqs
  import opened Catalog

  /** One cart line (`ItemVenda`). `id` is the product id, so it is not unique per line. */
  datatype Item = Item(id: int, name: string, quantity: int, unitPrice: int, subtotal: int)

  /** The entry form. A numeric field is `None` while its input is empty and
      otherwise holds the number its text parses to; `productName` is empty when "". */
  datatype SaleForm = SaleForm(productId: Option<int>, productName: string,
                               quantity: Option<int>, unitPrice: Option<int>)

  const BlankForm := SaleForm(None, "", None, None)

  /** One entry of the `POST /venda` body. */
  datatype SaleEntry = SaleEntry(productId: int, quantity: int, unitPrice: int)

  datatype CheckoutOutcome =
    | EmptyCart
    | InsufficientStock(name: string, available: int)
    | Submitted(payload: seq<SaleEntry>, total: int)
    | SubmitFailed(payload: seq<SaleEntry>)

  // ---------------------------------------------------------------- total

  /** The cart total: the line subtotals added up from the left, starting at 0. */
  function TotalOf(items: seq<Item>): int {
    if items == [] then 0 else TotalOf(items[..|items| - 1]) + items[|items| - 1].subtotal
  }

  /** Reference value of a cart: the sum of quantity times unit price, from the right. */
  ghost function LineValue(items: seq<Item>): int {
    if items == [] then 0 else items[0].quantity * items[0].unitPrice + LineValue(items[1..])
  }

  /** Every line's frozen subtotal is its quantity times its unit price. */
  ghost predicate SubtotalsConsistent(items: seq<Item>) {
    forall x :: x in items ==> x.subtotal == x.quantity * x.unitPrice
  }

  lemma {:induction false} TotalOfConcat(a: seq<Item>, b: seq<Item>)
    ensures TotalOf(a + b) == TotalOf(a) + TotalOf(b)
    decreases |b|
  {
    if b == [] {
      assert a + b == a;
    } else {
      var front := b[..|b| - 1];
      assert (a + b)[..|a + b| - 1] == a + front;
      TotalOfConcat(a, front);
    }
  }

  lemma {:induction false} LineValueSnoc(items: seq<Item>, x: Item)
    ensures LineValue(items + [x]) == LineValue(items) + x.quantity * x.unitPrice
  {
    if items != [] {
      assert (items + [x])[1..] == items[1..] + [x];
      LineValueSnoc(items[1..], x);
    }
  }

  /** The stored-subtotal total agrees with the quantity-times-price value of the cart. */
  lemma {:induction false} TotalIsLineValue(items: seq<Item>)
    ensures SubtotalsConsistent(items) ==> TotalOf(items) == LineValue(items)
  {
    if items != [] && SubtotalsConsistent(items) {
      var front := items[..|items| - 1];
      var last := items[|items| - 1];
      assert front + [last] == items;
      assert SubtotalsConsistent(front) by {
        forall x | x in front ensures x in items { }
      }
      TotalIsLineValue(front);
      LineValueSnoc(front, last);
    }
  }

  // ---------------------------------------------------------------- adding a line

  /** The guard of `handleAdicionarItem`: product, quantity and unit price are filled in. */
  predicate CanAdd(form: SaleForm) {
    form.productName != "" && form.quantity.Some? && form.unitPrice.Some?
  }

  /** The line built from a filled form; `Number("")` is 0 for a missing id. */
  function NewLine(form: SaleForm): (r: Item)
    requires CanAdd(form)
    ensures r.subtotal == r.quantity * r.unitPrice
  {
    var q := form.quantity.value;
    var p := form.unitPrice.value;
    Item(form.productId.GetOr(0), form.productName, q, p, q * p)
  }

  /** Adding a line raises the total by exactly that line's quantity times price. */
  lemma AddRaisesTotal(cart: seq<Item>, form: SaleForm)
    requires CanAdd(form)
    ensures TotalOf(cart + [NewLine(form)])
            == TotalOf(cart) + form.quantity.value * form.unitPrice.value
  {
    var s := cart + [NewLine(form)];
    assert s[..|s| - 1] == cart;
  }

  // ---------------------------------------------------------------- removing lines

  /** The cart after removing id `id`: every line with another id, in order. */
  function WithoutId(items: seq<Item>, id: int): seq<Item> {
    if items == [] then []
    else (if items[0].id == id then [] else [items[0]]) + WithoutId(items[1..], id)
  }

  /** A line survives removal exactly when it was in the cart and carries another id. */
  lemma {:induction false} WithoutIdMembers(items: seq<Item>, id: int)
    ensures forall x :: x in WithoutId(items, id) <==> x in items && x.id != id
  {
    if items != [] {
      WithoutIdMembers(items[1..], id);
      assert items == [items[0]] + items[1..];
    }
  }

  /** The lines `WithoutId` drops: those carrying the id. */
  ghost function WithId(items: seq<Item>, id: int): seq<Item> {
    if items == [] then []
    else (if items[0].id == id then [items[0]] else []) + WithId(items[1..], id)
  }

  /** Removal acts line by line: it distributes over concatenation. */
  lemma {:induction false} WithoutIdConcat(a: seq<Item>, b: seq<Item>, id: int)
    ensures WithoutId(a + b, id) == WithoutId(a, id) + WithoutId(b, id)
  {
    if a == [] {
      assert a + b == b;
    } else {
      var head := if a[0].id == id then [] else [a[0]];
      assert (a + b)[0] == a[0];
      assert (a + b)[1..] == a[1..] + b;
      assert WithoutId(a + b, id) == head + WithoutId(a[1..] + b, id);
      assert WithoutId(a, id) == head + WithoutId(a[1..], id);
      WithoutIdConcat(a[1..], b, id);
      assert head + (WithoutId(a[1..], id) + WithoutId(b, id))
          == (head + WithoutId(a[1..], id)) + WithoutId(b, id);
    }
  }

  /** Removing an id no line carries changes nothing. */
  lemma {:induction false} WithoutAbsentId(items: seq<Item>, id: int)
    requires forall i :: 0 <= i < |items| ==> items[i].id != id
    ensures WithoutId(items, id) == items
  {
    if items != [] {
      WithoutAbsentId(items[1..], id);
      assert [items[0]] + items[1..] == items;
    }
  }

  /** The lines kept are the original lines in their original order. */
  lemma {:induction false} WithoutIdIsSubsequence(items: seq<Item>, id: int)
    ensures IsSubsequence(WithoutId(items, id), items)
  {
    if items != [] {
      WithoutIdIsSubsequence(items[1..], id);
      var rest := WithoutId(items[1..], id);
      if items[0].id != id {
        assert ([items[0]] + rest)[1..] == rest;
      } else {
        assert [] + rest == rest;
      }
    }
  }

  /** Removal splits the total: what stays plus what was removed is the old total. */
  lemma {:induction false} RemovalSplitsTotal(items: seq<Item>, id: int)
    ensures TotalOf(items) == TotalOf(WithoutId(items, id)) + TotalOf(WithId(items, id))
  {
    if items != [] {
      var head := [items[0]];
      var tail := items[1..];
      assert head + tail == items;
      TotalOfConcat(head, tail);
      RemovalSplitsTotal(tail, id);
      var kept := if items[0].id == id then [] else head;
      var gone := if items[0].id == id then head else [];
      TotalOfConcat(kept, WithoutId(tail, id));
      TotalOfConcat(gone, WithId(tail, id));
      assert TotalOf([]) == 0;
    }
  }

  // ---------------------------------------------------------------- selecting a product

  /** `j` is the first catalog position whose name is `name`. */
  ghost predicate FirstNamed(catalog: seq<Product>, name: string, j: int) {
    0 <= j < |catalog| && catalog[j].name == name
    && forall i :: 0 <= i < j ==> catalog[i].name != name
  }

  /** The form after `handleSelecionarProduto(name)`. */
  function Selected(form: SaleForm, catalog: seq<Product>, name: string): (r: SaleForm)
    ensures r.quantity == form.quantity
    ensures (forall i :: 0 <= i < |catalog| ==> catalog[i].name != name) ==> r == form
    ensures forall j :: FirstNamed(catalog, name, j) ==>
              r == form.(productId := Some(catalog[j].id), productName := name,
                         unitPrice := Some(catalog[j].salePrice))
  {
    assert forall j :: FirstNamed(catalog, name, j) <==>
                       IsFirst(catalog, (p: Product) => p.name == name, j);
    match ProductByName(catalog, name)
    case None => form
    case Some(p) =>
      form.(productId := Some(p.id), productName := p.name, unitPrice := Some(p.salePrice))
  }

  /** Selecting a listed product with a non-empty name and then adding (with a quantity
      entered) appends a line for that product at its catalog price. */
  lemma SelectThenAdd(form: SaleForm, catalog: seq<Product>, j: nat)
    requires j < |catalog| && catalog[j].name != "" && form.quantity.Some?
    requires forall i :: 0 <= i < j ==> catalog[i].name != catalog[j].name
    ensures CanAdd(Selected(form, catalog, catalog[j].name))
    ensures NewLine(Selected(form, catalog, catalog[j].name))
            == Item(catalog[j].id, catalog[j].name, form.quantity.value, catalog[j].salePrice,
                    form.quantity.value * catalog[j].salePrice)
  {
    assert FirstNamed(catalog, catalog[j].name, j);
  }

  // ---------------------------------------------------------------- checkout

  /** A line asks for more than the stock of the first catalog product with its id;
      a line with no catalog match is never short. */
  predicate Short(line: Item, catalog: seq<Product>) {
    match ProductById(catalog, line.id)
    case None => false
    case Some(p) => line.quantity > p.stock
  }

  /** The stock figure checkout reports for a short line. */
  function Available(line: Item, catalog: seq<Product>): int
    requires Short(line, catalog)
  {
    ProductById(catalog, line.id).value.stock
  }

  /** The order body: one entry per cart line, in cart order. */
  function PayloadOf(items: seq<Item>): (r: seq<SaleEntry>)
    ensures |r| == |items|
    ensures forall i :: 0 <= i < |items| ==>
              r[i] == SaleEntry(items[i].id, items[i].quantity, items[i].unitPrice)
  {
    if items == [] then []
    else [SaleEntry(items[0].id, items[0].quantity, items[0].unitPrice)] + PayloadOf(items[1..])
  }

  /** What `handleFinalizarVenda` reports for a cart, a catalog snapshot and the
      order service's answer. */
  function CheckoutOutcomeOf(cart: seq<Item>, catalog: seq<Product>, submitOk: bool)
    : (r: CheckoutOutcome)
    ensures r.EmptyCart? <==> cart == []
    ensures r.InsufficientStock? ==>
              exists i :: IsFirst(cart, (l: Item) => Short(l, catalog), i)
                          && r.name == cart[i].name && r.available == Available(cart[i], catalog)
    ensures cart != [] && (exists i :: 0 <= i < |cart| && Short(cart[i], catalog)) ==>
              r.InsufficientStock?
    ensures (r.Submitted? || r.SubmitFailed?) ==>
              (forall i :: 0 <= i < |cart| ==> !Short(cart[i], catalog))
              && r.payload == PayloadOf(cart)
    ensures r.Submitted? ==> submitOk && r.total == TotalOf(cart)
    ensures r.SubmitFailed? ==> !submitOk
  {
    if cart == [] then EmptyCart
    else match FindIndex(cart, (l: Item) => Short(l, catalog))
      case Some(i) => InsufficientStock(cart[i].name, Available(cart[i], catalog))
      case None =>
        if submitOk then Submitted(PayloadOf(cart), TotalOf(cart))
        else SubmitFailed(PayloadOf(cart))
  }

  /** A submitted order never exceeds the stock of any product the catalog lists. */
  lemma SubmittedWithinStock(cart: seq<Item>, catalog: seq<Product>, submitOk: bool, i: nat)
    requires CheckoutOutcomeOf(cart, catalog, submitOk).Submitted? && i < |cart|
    requires ProductById(catalog, cart[i].id).Some?
    ensures cart[i].quantity <= ProductById(catalog, cart[i].id).value.stock
  {
    assert !Short(cart[i], catalog);
  }

  // ---------------------------------------------------------------- the page state

  class SalesPage {
    var cart: seq<Item>
    var form: SaleForm
    var catalog: seq<Product>

    /** Line subtotals stay frozen at quantity times price, and a product name is
        only ever in the form together with its id. */
    ghost predicate Valid()
      reads this
    {
      SubtotalsConsistent(cart) && (form.productName != "" ==> form.productId.Some?)
    }

    /** The page mounts with an empty cart, a blank form and no catalog yet. */
    constructor ()
      ensures Valid()
      ensures cart == [] && form == BlankForm && catalog == []
    {
      cart := [];
      form := BlankForm;
      catalog := [];
    }

    /** `totalVenda`, recomputed from the lines on every read. */
    function Total(): (r: int)
      reads this
      ensures cart == [] ==> r == 0
      ensures SubtotalsConsistent(cart) ==> r == LineValue(cart)
    {
      TotalIsLineValue(cart);
      TotalOf(cart)
    }

    /** The catalog fetch resolved with `products`. */
    method CatalogLoaded(products: seq<Product>)
      requires Valid()
      modifies this
      ensures Valid()
      ensures catalog == products && cart == old(cart) && form == old(form)
    {
      catalog := products;
    }

    /** The quantity input changed. */
    method EditQuantity(quantity: Option<int>)
      requires Valid()
      modifies this
      ensures Valid()
      ensures form == old(form).(quantity := quantity)
      ensures cart == old(cart) && catalog == old(catalog)
    {
      form := form.(quantity := quantity);
    }

    /** The unit price input changed (the price can be overridden by hand). */
    method EditUnitPrice(unitPrice: Option<int>)
      requires Valid()
      modifies this
      ensures Valid()
      ensures form == old(form).(unitPrice := unitPrice)
      ensures cart == old(cart) && catalog == old(catalog)
    {
      form := form.(unitPrice := unitPrice);
    }

    /** `handleAdicionarItem`: on a filled form, append one line and blank the form;
        otherwise change nothing. */
    method AddItem() returns (added: bool)
      requires Valid()
      modifies this
      ensures Valid()
      ensures added == CanAdd(old(form))
      ensures added ==> cart == old(cart) + [NewLine(old(form))] && form == BlankForm
      ensures !added ==> cart == old(cart) && form == old(form)
      ensures catalog == old(catalog)
    {
      if form.productName == "" || form.quantity.None? || form.unitPrice.None? {
        return false;
      }
      var line := NewLine(form);
      assert line.id == form.productId.value;
      cart := cart + [line];
      form := BlankForm;
      added := true;
    }

    /** `handleRemoverItem(id)`: drop every line carrying the id. */
    method RemoveItem(id: int)
      requires Valid()
      modifies this
      ensures Valid()
      ensures cart == WithoutId(old(cart), id)
      ensures form == old(form) && catalog == old(catalog)
    {
      WithoutIdMembers(cart, id);
      cart := WithoutId(cart, id);
    }

    /** `handleSelecionarProduto(name)`. */
    method SelectProduct(name: string)
      requires Valid()
      modifies this
      ensures Valid()
      ensures form == Selected(old(form), catalog, name)
      ensures cart == old(cart) && catalog == old(catalog)
    {
      var found := ProductByName(catalog, name);
      match found {
        case None =>
        case Some(p) =>
          form := form.(productId := Some(p.id), productName := p.name,
                        unitPrice := Some(p.salePrice));
      }
    }

    /** `handleFinalizarVenda`: refuse an empty cart, scan the lines in order for the
        first one short of stock, otherwise submit every line; the cart is emptied
        only when the order service accepts. */
    method Checkout(submitOk: bool) returns (outcome: CheckoutOutcome)
      requires Valid()
      modifies this
      ensures Valid()
      ensures outcome == CheckoutOutcomeOf(old(cart), catalog, submitOk)
      ensures cart == (if outcome.Submitted? then [] else old(cart))
      ensures form == old(form) && catalog == old(catalog)
    {
      if |cart| == 0 {
        return EmptyCart;
      }
      var i := 0;
      while i < |cart|
        invariant 0 <= i <= |cart|
        invariant forall j :: 0 <= j < i ==> !Short(cart[j], catalog)
      {
        var item := cart[i];
        var found := ProductById(catalog, item.id);
        if found.Some? && item.quantity > found.value.stock {
          assert Short(item, catalog);
          return InsufficientStock(item.name, found.value.stock);
        }
        i := i + 1;
      }
      var payload := PayloadOf(cart);
      var total := Total();
      if submitOk {
        cart := [];
        outcome := Submitted(payload, total);
      } else {
        outcome := SubmitFailed(payload);
      }
    }
  }
}
