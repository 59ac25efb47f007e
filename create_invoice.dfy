/** The line-item editor of the Create Invoice page: a list of line items that
    can be added, edited field by field and removed, and the subtotal, tax and
    total derived from it. Money and quantities are reals. */
module CreateInvoice {
  import Text
  import Collections

  datatype LineItem = LineItem(id: string, description: string, quantity: real, rate: real, amount: real)

  /** A `(field, value)` pair as passed to `updateLineItem`: the field named and a value of its type. */
  datatype FieldValue =
    | Id(id: string)
    | Description(description: string)
    | Quantity(quantity: real)
    | Rate(rate: real)
    | Amount(amount: real)

  /** The item every new row starts from. */
  function BlankItem(id: string): LineItem
  {
    LineItem(id, "", 1.0, 0.0, 0.0)
  }

  /** The editor opens with one blank item whose id is "1". */
  const InitialItems: seq<LineItem> := [BlankItem("1")]

  /** `addLineItem`: a blank item whose id is the decimal string of the new length. */
  function WithItemAdded(items: seq<LineItem>): (r: seq<LineItem>)
    ensures |r| == |items| + 1 && r[..|items|] == items
    ensures r[|items|].description == "" && r[|items|].quantity == 1.0
    ensures r[|items|].rate == 0.0 && r[|items|].amount == 0.0
    ensures r[|items|].id == Text.NatToDecimal(|items| + 1)
  {
    items + [BlankItem(Text.NatToDecimal(|items| + 1))]
  }

  /** `{ ...item, [field]: value }`, followed by the recomputation of `amount`
      when the field is `quantity` or `rate`. */
  function WithField(item: LineItem, f: FieldValue): (r: LineItem)
    ensures f.Quantity? || f.Rate? ==> r.amount == r.quantity * r.rate
    ensures f.Quantity? ==> r == item.(quantity := f.quantity, amount := f.quantity * item.rate)
    ensures f.Rate? ==> r == item.(rate := f.rate, amount := item.quantity * f.rate)
    ensures f.Description? ==> r == item.(description := f.description)
    ensures f.Id? ==> r == item.(id := f.id)
    ensures f.Amount? ==> r == item.(amount := f.amount)
  {
    var updated := match f
      case Id(v) => item.(id := v)
      case Description(v) => item.(description := v)
      case Quantity(v) => item.(quantity := v)
      case Rate(v) => item.(rate := v)
      case Amount(v) => item.(amount := v);
    if f.Quantity? || f.Rate? then updated.(amount := updated.quantity * updated.rate) else updated
  }

  /** `updateLineItem(id, field, value)`: every item with that id gets the field;
      ids need not be unique, so several items may change. */
  function WithItemUpdated(items: seq<LineItem>, id: string, f: FieldValue): (r: seq<LineItem>)
    ensures |r| == |items|
    ensures forall i :: 0 <= i < |items| && items[i].id != id ==> r[i] == items[i]
    ensures forall i :: 0 <= i < |items| && items[i].id == id ==> r[i] == WithField(items[i], f)
  {
    seq(|items|, i requires 0 <= i < |items| => if items[i].id == id then WithField(items[i], f) else items[i])
  }

  function HasId(id: string): LineItem -> bool
  {
    (item: LineItem) => item.id == id
  }

  function LacksId(id: string): LineItem -> bool
  {
    (item: LineItem) => item.id != id
  }

  /** `removeLineItem(id)`: refused while only one item is left; otherwise every item
      carrying the id is dropped and the rest keep their order. */
  function WithItemRemoved(items: seq<LineItem>, id: string): (r: seq<LineItem>)
    ensures |items| <= 1 ==> r == items
    ensures |items| > 1 ==> r == Collections.Filter(items, LacksId(id))
    ensures forall i :: 0 <= i < |r| ==> r[i] in items
    ensures |items| > 1 ==> forall i :: 0 <= i < |r| ==> r[i].id != id
    ensures |items| > 1 ==> forall i :: 0 <= i < |items| && items[i].id != id ==> items[i] in r
  {
    if |items| > 1 then Collections.Filter(items, LacksId(id)) else items
  }

  /** `lineItems.reduce((sum, item) => sum + item.amount, 0)`, folded from the left. */
  function Subtotal(items: seq<LineItem>): (r: real)
    ensures (forall i :: 0 <= i < |items| ==> items[i].amount >= 0.0) ==> r >= 0.0
    ensures (forall i :: 0 <= i < |items| ==> items[i].amount == 0.0) ==> r == 0.0
  {
    if items == [] then 0.0 else Subtotal(items[..|items| - 1]) + items[|items| - 1].amount
  }

  function TaxAmount(subtotal: real, taxRate: real): (r: real)
    ensures taxRate == 0.0 || subtotal == 0.0 ==> r == 0.0
    ensures subtotal >= 0.0 && taxRate >= 0.0 ==> r >= 0.0
  {
    subtotal * (taxRate / 100.0)
  }

  function Total(subtotal: real, taxRate: real): (r: real)
    ensures taxRate == 0.0 ==> r == subtotal
    ensures r == subtotal * (1.0 + taxRate / 100.0)
  {
    subtotal + TaxAmount(subtotal, taxRate)
  }

  /** The subtotal of two lists one after the other is the sum of their subtotals. */
  lemma {:induction false} SubtotalConcat(a: seq<LineItem>, b: seq<LineItem>)
    ensures Subtotal(a + b) == Subtotal(a) + Subtotal(b)
    decreases |b|
  {
    if b == [] {
      assert a + b == a;
    } else {
      assert (a + b)[..|a + b| - 1] == a + b[..|b| - 1];
      SubtotalConcat(a, b[..|b| - 1]);
    }
  }

  /** The fold from the left agrees with the sum taken from the first item on. */
  lemma SubtotalCons(x: LineItem, rest: seq<LineItem>)
    ensures Subtotal([x] + rest) == x.amount + Subtotal(rest)
  {
    SubtotalConcat([x], rest);
    assert [x][..0] == [];
  }

  /** Splitting the items by whether they carry an id splits the subtotal. */
  lemma {:induction false} SubtotalPartition(items: seq<LineItem>, id: string)
    ensures Subtotal(items)
         == Subtotal(Collections.Filter(items, LacksId(id))) + Subtotal(Collections.Filter(items, HasId(id)))
  {
    if items != [] {
      var x, rest := items[0], items[1..];
      SubtotalPartition(rest, id);
      assert items == [x] + rest;
      SubtotalCons(x, rest);
      var kept, dropped := Collections.Filter(rest, LacksId(id)), Collections.Filter(rest, HasId(id));
      if x.id == id {
        assert Collections.Filter(items, LacksId(id)) == kept;
        assert Collections.Filter(items, HasId(id)) == [x] + dropped;
        SubtotalCons(x, dropped);
      } else {
        assert Collections.Filter(items, LacksId(id)) == [x] + kept;
        assert Collections.Filter(items, HasId(id)) == dropped;
        SubtotalCons(x, kept);
      }
    }
  }

  /** Adding a line item leaves the subtotal, and so the tax and total, as they were. */
  lemma AddKeepsSubtotal(items: seq<LineItem>)
    ensures Subtotal(WithItemAdded(items)) == Subtotal(items)
  {
    SubtotalConcat(items, [BlankItem(Text.NatToDecimal(|items| + 1))]);
    assert Subtotal([BlankItem(Text.NatToDecimal(|items| + 1))]) == 0.0;
  }

  /** Removing an id takes exactly the amounts of the dropped items out of the subtotal. */
  lemma RemoveSubtractsAmounts(items: seq<LineItem>, id: string)
    requires |items| > 1
    ensures Subtotal(WithItemRemoved(items, id)) == Subtotal(items) - Subtotal(Collections.Filter(items, HasId(id)))
  {
    SubtotalPartition(items, id);
  }

  /** Editing a description (or any field other than quantity, rate and amount)
      leaves every amount, and so the subtotal, as it was. */
  lemma {:induction false} DescriptionEditKeepsSubtotal(items: seq<LineItem>, id: string, text: string)
    ensures Subtotal(WithItemUpdated(items, id, Description(text))) == Subtotal(items)
    decreases |items|
  {
    if items != [] {
      var u := WithItemUpdated(items, id, Description(text));
      var n := |items|;
      assert u[..n - 1] == WithItemUpdated(items[..n - 1], id, Description(text));
      DescriptionEditKeepsSubtotal(items[..n - 1], id, text);
    }
  }

  /** The editor starts with a zero subtotal and a zero total. */
  lemma InitialTotalsAreZero(taxRate: real)
    ensures Subtotal(InitialItems) == 0.0
    ensures Total(Subtotal(InitialItems), taxRate) == 0.0
  {
    assert InitialItems[..0] == [];
  }

  /** Line ids are not unique: after removing item "1" and adding again, two items
      share id "2", and removing "2" then empties the list despite the one-item guard. */
  /** Item `i` (from 0) carries the id `${i + 1}`, as a list built by adds alone does. */
  ghost predicate NumberedIds(items: seq<LineItem>)
  {
    forall i :: 0 <= i < |items| ==> items[i].id == Text.NatToDecimal(i + 1)
  }

  /** The initial list is numbered, and adding an item keeps the numbering. */
  lemma {:induction false} AddKeepsNumbering(items: seq<LineItem>)
    ensures NumberedIds(InitialItems)
    ensures NumberedIds(items) ==> NumberedIds(WithItemAdded(items))
  {
    assert Text.NatToDecimal(1) == "1";
    if NumberedIds(items) {
      var r := WithItemAdded(items);
      forall i | 0 <= i < |r|
        ensures r[i].id == Text.NatToDecimal(i + 1)
      {
        if i < |items| {
          assert r[i] == r[..|items|][i];
        }
      }
    }
  }

  /** As long as items are only added, no two of them share an id. */
  lemma {:induction false} NumberedIdsDistinct(items: seq<LineItem>, i: nat, j: nat)
    requires NumberedIds(items)
    requires i < j < |items|
    ensures items[i].id != items[j].id
  {
    Text.DecimalInjective(i + 1, j + 1);
  }

  lemma IdsCollideAfterRemoval()
    ensures var afterAdd := WithItemAdded(WithItemRemoved(WithItemAdded(InitialItems), "1"));
            |afterAdd| == 2 && afterAdd[0].id == afterAdd[1].id == "2"
            && WithItemRemoved(afterAdd, "2") == []
  {
    var two := WithItemAdded(InitialItems);
    assert Text.NatToDecimal(2) == "2";
    assert two == [BlankItem("1"), BlankItem("2")];
    assert [BlankItem("1"), BlankItem("2")] == [BlankItem("1")] + [BlankItem("2")];
    Collections.FilterConcat([BlankItem("1")], [BlankItem("2")], LacksId("1"));
    var one := WithItemRemoved(two, "1");
    assert one == [BlankItem("2")];
    var afterAdd := WithItemAdded(one);
    assert afterAdd == [BlankItem("2"), BlankItem("2")];
    assert [BlankItem("2"), BlankItem("2")] == [BlankItem("2")] + [BlankItem("2")];
    Collections.FilterConcat([BlankItem("2")], [BlankItem("2")], LacksId("2"));
  }

  /** The client name the invoice preview shows for the selected client key. */
  function PreviewClientName(client: string): (r: string)
    ensures client == "" ==> r == "New Client"
    ensures client != "" ==> r == Text.Capitalize(client) + " Corp"
    ensures client != "" ==> |r| == |client| + 5 && r[1..|client|] == client[1..] && !Text.IsLower(r[0])
  {
    if client == "" then "New Client" else Text.Capitalize(client) + " Corp"
  }

  /** The state of the Create Invoice page that the line-item handlers change. */
  class InvoiceEditor {
    var lineItems: seq<LineItem>
    var taxRate: real
    var client: string

    constructor ()
      ensures lineItems == InitialItems && taxRate == 0.0 && client == ""
    {
      lineItems := InitialItems;
      taxRate := 0.0;
      client := "";
    }

    method AddLineItem()
      modifies this
      ensures lineItems == WithItemAdded(old(lineItems))
      ensures taxRate == old(taxRate) && client == old(client)
    {
      lineItems := WithItemAdded(lineItems);
    }

    method UpdateLineItem(id: string, f: FieldValue)
      modifies this
      ensures lineItems == WithItemUpdated(old(lineItems), id, f)
      ensures taxRate == old(taxRate) && client == old(client)
    {
      lineItems := WithItemUpdated(lineItems, id, f);
    }

    method RemoveLineItem(id: string)
      modifies this
      ensures lineItems == WithItemRemoved(old(lineItems), id)
      ensures taxRate == old(taxRate) && client == old(client)
    {
      if |lineItems| > 1 {
        lineItems := Collections.Filter(lineItems, LacksId(id));
      }
    }

    /** The tax-rate input; the parsed number is given. */
    method SetTaxRate(rate: real)
      modifies this
      ensures taxRate == rate && lineItems == old(lineItems) && client == old(client)
    {
      taxRate := rate;
    }

    method SetClient(key: string)
      modifies this
      ensures client == key && lineItems == old(lineItems) && taxRate == old(taxRate)
    {
      client := key;
    }

    function CurrentSubtotal(): real
      reads this
    {
      Subtotal(lineItems)
    }

    function CurrentTaxAmount(): real
      reads this
    {
      TaxAmount(Subtotal(lineItems), taxRate)
    }

    function CurrentTotal(): (r: real)
      reads this
      ensures r == CurrentSubtotal() + CurrentTaxAmount()
    {
      Total(Subtotal(lineItems), taxRate)
    }
  }
}
