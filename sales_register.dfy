/**
 * The sale register: an in-progress sale is an ordered list of line items that
 * the cashier adds to, re-counts, removes from and finally processes. Subtotal,
 * IVA and total are reductions over that list.
 *
 * The formulas are the register's own: the IVA of an item flagged `hasIva` is
 * `price - price / 1.19`, i.e. its price is read as already including the tax,
 * yet the total adds that IVA on top of the subtotal of those same prices.
 */
module SalesRegister {
  import opened Wrappers
  import opened Lists
  import opened Rounding
  import IvaCalculator

  datatype SaleItem = SaleItem(id: string, name: string, price: real, quantity: int, hasIva: bool)

  /** What `processSale` reports for a finished sale. */
  datatype Receipt = Receipt(items: seq<SaleItem>, subtotal: real, iva: real, total: real)

  /** The invariant every sale keeps: no line has a quantity below 1. */
  predicate QuantitiesPositive(items: seq<SaleItem>)
  {
    forall i :: 0 <= i < |items| ==> items[i].quantity >= 1
  }

  /** No line has a negative price. */
  predicate PricesNonNegative(items: seq<SaleItem>)
  {
    forall i :: 0 <= i < |items| ==> items[i].price >= 0.0
  }

  function Max(a: int, b: int): int
  {
    if a >= b then a else b
  }

  // ---- list updates ----

  /** One line after `updateQuantity`: a line with `id` gets quantity `max(1, quantity + change)`, others stay. */
  function Adjusted(item: SaleItem, id: string, change: int): (r: SaleItem)
    ensures r.id == item.id && r.name == item.name && r.price == item.price && r.hasIva == item.hasIva
    ensures item.id != id ==> r == item
    ensures item.id == id ==> r.quantity == Max(1, item.quantity + change) && r.quantity >= 1
  {
    if item.id == id then item.(quantity := Max(1, item.quantity + change)) else item
  }

  /** `updateQuantity`: every line is adjusted in place; the list keeps its length and order. */
  function WithQuantityChanged(items: seq<SaleItem>, id: string, change: int): (r: seq<SaleItem>)
    ensures |r| == |items|
    ensures forall i :: 0 <= i < |items| ==> r[i] == Adjusted(items[i], id, change)
  {
    if items == [] then []
    else [Adjusted(items[0], id, change)] + WithQuantityChanged(items[1..], id, change)
  }

  /** Changing a quantity keeps every quantity at least 1 and never removes a line. */
  lemma QuantityChangeKeepsInvariant(items: seq<SaleItem>, id: string, change: int)
    requires QuantitiesPositive(items)
    ensures QuantitiesPositive(WithQuantityChanged(items, id, change))
    ensures |WithQuantityChanged(items, id, change)| == |items|
  {
  }

  /** Decrementing a line of quantity 1, by the "-" button's 1 or by any other step, leaves it as it was. */
  lemma DecrementClampsAtOne(item: SaleItem, change: int)
    requires item.quantity == 1 && change <= 0
    ensures WithQuantityChanged([item], item.id, change) == [item]
  {
  }

  /** The test `filter` uses to drop the lines with `id`. */
  function OtherId(id: string): SaleItem -> bool
  {
    (x: SaleItem) => x.id != id
  }

  /** `removeItem`: the lines whose id is not `id`, in their original order. */
  function WithoutItem(items: seq<SaleItem>, id: string): (r: seq<SaleItem>)
    ensures |r| <= |items|
    ensures forall i :: 0 <= i < |r| ==> r[i].id != id && r[i] in items
    ensures forall i :: 0 <= i < |items| && items[i].id != id ==> items[i] in r
  {
    Filter(OtherId(id), items)
  }

  /** Removing an id that no line has leaves the sale as it is. */
  lemma RemoveAbsentIsNoOp(items: seq<SaleItem>, id: string)
    requires forall i :: 0 <= i < |items| ==> items[i].id != id
    ensures WithoutItem(items, id) == items
  {
    FilterAll(OtherId(id), items);
  }

  /** Removal keeps the relative order of the remaining lines. */
  lemma RemovePreservesOrder(s: seq<SaleItem>, t: seq<SaleItem>, id: string)
    ensures WithoutItem(s + t, id) == WithoutItem(s, id) + WithoutItem(t, id)
  {
    FilterAppend(OtherId(id), s, t);
  }

  /** Removal keeps the quantity invariant. */
  lemma RemoveKeepsInvariant(items: seq<SaleItem>, id: string)
    requires QuantitiesPositive(items)
    ensures QuantitiesPositive(WithoutItem(items, id))
  {
    var r := WithoutItem(items, id);
    forall i | 0 <= i < |r|
      ensures r[i].quantity >= 1
    {
      var j :| 0 <= j < |items| && items[j] == r[i];
    }
  }

  // ---- totals ----

  /** `price * quantity` of one line. */
  function LineTotal(item: SaleItem): real
  {
    item.price * item.quantity as real
  }

  /** The tax the register reads into one unit of a tax-inclusive price. */
  function UnitIva(price: real): real
  {
    price - price / 1.19
  }

  /** The IVA of one line: zero unless the line is flagged `hasIva`. */
  function LineIva(item: SaleItem): real
  {
    if item.hasIva then UnitIva(item.price) * item.quantity as real else 0.0
  }

  /** The gross amount of a line flagged `hasIva`, zero for the others. */
  function TaxedLineTotal(item: SaleItem): real
  {
    if item.hasIva then LineTotal(item) else 0.0
  }

  /** `calculateSubtotal`: the sum of `price * quantity`. */
  function Subtotal(items: seq<SaleItem>): real
  {
    Sum(items, LineTotal)
  }

  /** `calculateIVA`: the sum of the lines' IVA. */
  function Iva(items: seq<SaleItem>): real
  {
    Sum(items, LineIva)
  }

  /** `calculateTotal`, before its `toLocaleString` formatting. */
  function Total(items: seq<SaleItem>): (total: real)
    ensures total == Subtotal(items) + (19.0 / 119.0) * Sum(items, TaxedLineTotal)
  {
    IvaIsShareOfTaxedLines(items);
    Subtotal(items) + Iva(items)
  }

  /** The quick "Precio sin IVA" figure: the subtotal with the tax taken out, rounded. */
  function NetOfIvaFigure(items: seq<SaleItem>): int
  {
    Round(Subtotal(items) / 1.19)
  }

  /** The quick "Solo IVA" figure: the IVA, rounded. */
  function IvaFigure(items: seq<SaleItem>): int
  {
    Round(Iva(items))
  }

  /** An empty sale has subtotal, IVA and total 0. */
  lemma EmptySaleTotals()
    ensures Subtotal([]) == 0.0 && Iva([]) == 0.0 && Total([]) == 0.0
  {
  }

  /** Adding a line adds its `price * quantity` to the subtotal and its IVA to the IVA. */
  lemma TotalsAfterAppend(items: seq<SaleItem>, item: SaleItem)
    ensures Subtotal(items + [item]) == Subtotal(items) + item.price * item.quantity as real
    ensures Iva(items + [item]) == Iva(items) + LineIva(item)
  {
    SumSnoc(items, item, LineTotal);
    SumSnoc(items, item, LineIva);
  }

  /** The per-unit IVA is 19/119 of the price: the share of tax inside a price that includes 19%. */
  lemma UnitIvaShare(price: real)
    ensures UnitIva(price) == price * (19.0 / 119.0)
    ensures UnitIva(price) == IvaCalculator.IvaInTotal(price)
  {
  }

  /** The IVA is 19/119 of the gross amount of the lines flagged `hasIva`; other lines contribute nothing. */
  lemma IvaIsShareOfTaxedLines(items: seq<SaleItem>)
    ensures Iva(items) == (19.0 / 119.0) * Sum(items, TaxedLineTotal)
  {
    forall x | x in items
      ensures LineIva(x) == (19.0 / 119.0) * TaxedLineTotal(x)
    {
      UnitIvaShare(x.price);
    }
    SumScale(items, LineIva, TaxedLineTotal, 19.0 / 119.0);
  }

  /** A line with a non-negative price has an IVA between 0 and its own gross amount. */
  lemma LineIvaBounds(item: SaleItem)
    requires item.price >= 0.0 && item.quantity >= 1
    ensures 0.0 <= LineIva(item) <= LineTotal(item)
  {
    if item.hasIva {
      var p, u, q := item.price, UnitIva(item.price), item.quantity as real;
      UnitIvaShare(p);
      assert 0.0 <= u <= p;
      assert LineTotal(item) - LineIva(item) == (p - u) * q;
      assert 0.0 <= (p - u) * q;
      assert 0.0 <= u * q;
    }
  }

  /** With non-negative prices, the IVA lies between 0 and the subtotal. */
  lemma IvaBounds(items: seq<SaleItem>)
    requires QuantitiesPositive(items) && PricesNonNegative(items)
    ensures 0.0 <= Iva(items) <= Subtotal(items)
  {
    forall x | x in items
      ensures 0.0 <= LineIva(x) <= LineTotal(x)
    {
      var i :| 0 <= i < |items| && items[i] == x;
      LineIvaBounds(x);
    }
    SumNonNegative(items, LineIva);
    SumMonotone(items, LineIva, LineTotal);
  }

  /**
   * With non-negative prices the total is at least the subtotal; when every line
   * is flagged `hasIva`, it is 1 + 19/119 times the subtotal, so tax that the
   * prices already include is charged a second time.
   */
  lemma TotalAddsIvaOnTop(items: seq<SaleItem>)
    requires QuantitiesPositive(items) && PricesNonNegative(items)
    ensures Subtotal(items) <= Total(items)
    ensures (forall i :: 0 <= i < |items| ==> items[i].hasIva) ==>
              Total(items) == Subtotal(items) * (138.0 / 119.0)
  {
    IvaBounds(items);
    IvaIsShareOfTaxedLines(items);
    if forall i :: 0 <= i < |items| ==> items[i].hasIva {
      forall x | x in items
        ensures TaxedLineTotal(x) == 1.0 * LineTotal(x)
      {
        var i :| 0 <= i < |items| && items[i] == x;
      }
      SumScale(items, TaxedLineTotal, LineTotal, 1.0);
    }
  }

  /** One tax-inclusive item of 119000: subtotal 119000, IVA 19000, total 138000. */
  lemma SingleTaxedItemExample(id: string, name: string)
    ensures var items := [SaleItem(id, name, 119000.0, 1, true)];
            Subtotal(items) == 119000.0 && Iva(items) == 19000.0 && Total(items) == 138000.0
  {
    var items := [SaleItem(id, name, 119000.0, 1, true)];
    assert items == [] + [items[0]];
    TotalsAfterAppend([], items[0]);
  }

  /** When every line is flagged `hasIva`, the two quick figures add up to the subtotal, give or take 1. */
  lemma QuickFiguresSplitSubtotal(items: seq<SaleItem>)
    requires forall i :: 0 <= i < |items| ==> items[i].hasIva
    ensures Subtotal(items) - 1.0 < (NetOfIvaFigure(items) + IvaFigure(items)) as real <= Subtotal(items) + 1.0
  {
    IvaIsShareOfTaxedLines(items);
    forall x | x in items
      ensures TaxedLineTotal(x) == 1.0 * LineTotal(x)
    {
      var i :| 0 <= i < |items| && items[i] == x;
    }
    SumScale(items, TaxedLineTotal, LineTotal, 1.0);
    assert Iva(items) + Subtotal(items) / 1.19 == Subtotal(items);
  }

  /** The current sale on the register screen, with the custom-product form. */
  class Register {
    var currentSale: seq<SaleItem>
    var productName: string
    /** The number field's value: None while it is empty. */
    var productPrice: Option<real>
    var hasIva: bool

    ghost predicate Valid()
      reads this
    {
      QuantitiesPositive(currentSale)
    }

    constructor ()
      ensures Valid()
      ensures currentSale == [] && productName == "" && productPrice == None && hasIva
    {
      currentSale := [];
      productName := "";
      productPrice := None;
      hasIva := true;
    }

    /** `addProduct`: one new line with quantity 1 at the end of the sale. */
    method AddProduct(id: string, name: string, price: real, taxed: bool)
      requires Valid()
      modifies this`currentSale
      ensures Valid()
      ensures currentSale == old(currentSale) + [SaleItem(id, name, price, 1, taxed)]
    {
      var item := SaleItem(id, name, price, 1, taxed);
      currentSale := currentSale + [item];
    }

    /** `addCustomProduct`: adds the form's product only when both fields are filled, then empties them. */
    method AddCustomProduct(id: string) returns (added: bool)
      requires Valid()
      modifies this`currentSale, this`productName, this`productPrice
      ensures Valid()
      ensures added <==> old(productName) != "" && old(productPrice).Some?
      ensures added ==>
                currentSale == old(currentSale) + [SaleItem(id, old(productName), old(productPrice).value, 1, hasIva)] &&
                productName == "" && productPrice == None
      ensures !added ==>
                currentSale == old(currentSale) && productName == old(productName) && productPrice == old(productPrice)
    {
      added := productName != "" && productPrice.Some?;
      if added {
        AddProduct(id, productName, productPrice.value, hasIva);
        productName := "";
        productPrice := None;
      }
    }

    /** `updateQuantity`: the lines with `id` change quantity, clamped at 1; nothing else changes. */
    method UpdateQuantity(id: string, change: int)
      requires Valid()
      modifies this`currentSale
      ensures Valid()
      ensures currentSale == WithQuantityChanged(old(currentSale), id, change)
    {
      QuantityChangeKeepsInvariant(currentSale, id, change);
      currentSale := WithQuantityChanged(currentSale, id, change);
    }

    /** `removeItem`: the lines with `id` leave the sale, the others keep their order. */
    method RemoveItem(id: string)
      requires Valid()
      modifies this`currentSale
      ensures Valid()
      ensures currentSale == WithoutItem(old(currentSale), id)
    {
      RemoveKeepsInvariant(currentSale, id);
      currentSale := WithoutItem(currentSale, id);
    }

    /** `processSale`: a non-empty sale is reported and cleared; an empty one is left alone. */
    method ProcessSale() returns (receipt: Option<Receipt>)
      requires Valid()
      modifies this`currentSale
      ensures Valid()
      ensures currentSale == []
      ensures old(currentSale) == [] <==> receipt == None
      ensures receipt.Some? ==>
                receipt.value == Receipt(old(currentSale), Subtotal(old(currentSale)),
                                         Iva(old(currentSale)), Total(old(currentSale)))
    {
      if |currentSale| > 0 {
        receipt := Some(Receipt(currentSale, Subtotal(currentSale), Iva(currentSale), Total(currentSale)));
        currentSale := [];
      } else {
        receipt := None;
      }
    }
  }

  /** Removing the first of two lines with different ids leaves the second. */
  lemma RemoveFirstOfTwo(first: SaleItem, second: SaleItem)
    requires first.id != second.id
    ensures WithoutItem([first, second], first.id) == [second]
  {
    assert [first, second] == [first] + [second];
    RemovePreservesOrder([first], [second], first.id);
    RemoveAbsentIsNoOp([second], first.id);
  }

  /** A sale of one taxed unit: subtotal the price, IVA its tax share, total their sum. */
  lemma SingleUnitFigures(item: SaleItem)
    requires item.quantity == 1 && item.hasIva
    ensures Subtotal([item]) == item.price
    ensures Iva([item]) == UnitIva(item.price)
    ensures Total([item]) == item.price + UnitIva(item.price)
  {
    assert [item] == [] + [item];
    TotalsAfterAppend([], item);
    assert LineIva(item) == UnitIva(item.price);
  }

  /** Adding two products, removing the first and processing the sale leaves the register empty. */
  method AddRemoveProcessScenario(price: real) returns (r: Register, receipt: Option<Receipt>)
    ensures r.currentSale == []
    ensures receipt == Some(Receipt([SaleItem("2", "Joyería", price, 1, true)], price, UnitIva(price), price + UnitIva(price)))
  {
    var first := SaleItem("1", "Artesanía Pequeña", 15000.0, 1, true);
    var second := SaleItem("2", "Joyería", price, 1, true);
    RemoveFirstOfTwo(first, second);
    SingleUnitFigures(second);
    r := new Register();
    r.AddProduct(first.id, first.name, first.price, first.hasIva);
    r.AddProduct(second.id, second.name, second.price, second.hasIva);
    assert r.currentSale == [first, second];
    r.RemoveItem(first.id);
    receipt := r.ProcessSale();
  }
}
