/** The invoice repository of store/useInvoiceStore.ts: an in-memory collection of invoices that every
    mutation writes back, whole, to durable storage under one key. Identifiers and timestamps, which the
    application draws from the clock and a random source, are parameters here. */
module InvoiceStore {
  import opened Wrappers
  import opened InvoiceTypes
  import opened Money
  import opened InvoiceNumbers

  // ---------------------------------------------------------------------------------------------
  // Invariants of a stored invoice

  /** Every line's subtotal is its quantity times its price. */
  predicate ItemsConsistent(items: seq<InvoiceItem>) {
    forall k :: 0 <= k < |items| ==> items[k].subtotal == ItemSubtotal(items[k].quantity, items[k].price)
  }

  /** The shown amounts are the totals of the invoice's own items, tax rate and discount. */
  predicate TotalsConsistent(inv: Invoice) {
    InvoiceTotals(inv.items, inv.taxRate, inv.discount) == Totals(inv.subtotal, inv.taxAmount, inv.total)
  }

  // ---------------------------------------------------------------------------------------------
  // Building items

  /** The lines built from form items, in order, with the given identifiers and computed subtotals. */
  function ItemsFrom(inputs: seq<ItemInput>, ids: seq<string>): (items: seq<InvoiceItem>)
    requires |ids| == |inputs|
    ensures |items| == |inputs| && ItemsConsistent(items)
    ensures forall k :: 0 <= k < |items| ==>
      items[k].id == ids[k] && items[k].description == inputs[k].description
      && items[k].quantity == inputs[k].quantity && items[k].price == inputs[k].price
  {
    seq(|inputs|, k requires 0 <= k < |inputs| =>
      InvoiceItem(ids[k], inputs[k].description, inputs[k].quantity, inputs[k].price,
                  ItemSubtotal(inputs[k].quantity, inputs[k].price)))
  }

  /** The existing line that an edited item is matched with: same description and same price. */
  predicate SameLine(item: InvoiceItem, input: ItemInput) {
    item.description == input.description && item.price == input.price
  }

  /** `existingInvoice.items.find(...)`: the position of the first matching line, if any. */
  function FirstMatch(items: seq<InvoiceItem>, input: ItemInput): (r: Option<nat>)
    ensures r.Some? ==> r.value < |items| && SameLine(items[r.value], input)
    ensures r.Some? ==> forall j :: 0 <= j < r.value ==> !SameLine(items[j], input)
    ensures r.None? ==> forall j :: 0 <= j < |items| ==> !SameLine(items[j], input)
  {
    if items == [] then None
    else if SameLine(items[0], input) then Some(0)
    else
      match FirstMatch(items[1..], input)
      case None => None
      case Some(j) => Some(j + 1)
  }

  /** `existingItem?.id || generateId()`: the first matching line's identifier unless there is no
      match or that identifier is empty, in which case the fresh one. */
  function ReusedId(existing: seq<InvoiceItem>, input: ItemInput, freshId: string): string {
    match FirstMatch(existing, input)
    case Some(j) => if existing[j].id != "" then existing[j].id else freshId
    case None => freshId
  }

  /** The identifiers of edited items, position by position. */
  function ReusedIds(existing: seq<InvoiceItem>, inputs: seq<ItemInput>, freshIds: seq<string>): (ids: seq<string>)
    requires |freshIds| == |inputs|
    ensures |ids| == |inputs|
    ensures forall k :: 0 <= k < |inputs| ==>
      var m := FirstMatch(existing, inputs[k]);
      && (m.Some? && existing[m.value].id != "" ==> ids[k] == existing[m.value].id)
      && (m.None? || existing[m.value].id == "" ==> ids[k] == freshIds[k])
  {
    seq(|inputs|, k requires 0 <= k < |inputs| => ReusedId(existing, inputs[k], freshIds[k]))
  }

  /** Identity is kept across an edit that changes only quantities. */
  lemma ReusedIdKeepsMatch(existing: seq<InvoiceItem>, j: nat, input: ItemInput, freshId: string)
    requires j < |existing| && SameLine(existing[j], input) && existing[j].id != ""
    requires forall i :: 0 <= i < j ==> !SameLine(existing[i], input)
    ensures ReusedId(existing, input, freshId) == existing[j].id
  {
    var m := FirstMatch(existing, input);
    assert m.Some?;
    assert m.value == j;
  }

  /** A line that matches no existing line gets the fresh identifier. */
  lemma ReusedIdWithoutMatch(existing: seq<InvoiceItem>, input: ItemInput, freshId: string)
    requires forall i :: 0 <= i < |existing| ==> !SameLine(existing[i], input)
    ensures ReusedId(existing, input, freshId) == freshId
  {
    assert FirstMatch(existing, input).None?;
  }

  /** A line whose first match carries an empty identifier gets the fresh one too, as `||` does. */
  lemma ReusedIdOfEmptyId(existing: seq<InvoiceItem>, j: nat, input: ItemInput, freshId: string)
    requires j < |existing| && SameLine(existing[j], input) && existing[j].id == ""
    requires forall i :: 0 <= i < j ==> !SameLine(existing[i], input)
    ensures ReusedId(existing, input, freshId) == freshId
  {
    var m := FirstMatch(existing, input);
    assert m.Some?;
    assert m.value == j;
  }

  // ---------------------------------------------------------------------------------------------
  // Creating and updating one invoice

  /** The invoice `addInvoice` builds: items with the given identifiers and computed subtotals, totals
      from `calculateInvoiceTotals`, and equal creation and modification times. */
  function NewInvoice(input: CreateInvoiceInput, itemIds: seq<string>, invoiceId: string, now: string): (inv: Invoice)
    requires |itemIds| == |input.items|
    ensures inv.id == invoiceId && inv.clientId == None && inv.createdAt == now && inv.updatedAt == now
    ensures inv.clientName == input.clientName && inv.invoiceNumber == input.invoiceNumber
    ensures inv.date == input.date && inv.dueDate == input.dueDate && inv.notes == input.notes
    ensures inv.taxRate == input.taxRate && inv.discount == input.discount
    ensures inv.items == ItemsFrom(input.items, itemIds)
    ensures ItemsConsistent(inv.items) && TotalsConsistent(inv)
  {
    var items := ItemsFrom(input.items, itemIds);
    var totals := InvoiceTotals(items, input.taxRate, input.discount);
    Invoice(invoiceId, None, input.clientName, input.invoiceNumber, input.date, input.dueDate, items,
            totals.subtotal, input.taxRate, totals.taxAmount, input.discount, totals.total,
            input.notes, now, now)
  }

  /** Lines with no negative quantity or price give a new invoice no negative amount, as long as
      the discount does not exceed the whole. */
  lemma NewInvoiceNonNegative(input: CreateInvoiceInput, itemIds: seq<string>, invoiceId: string, now: string)
    requires |itemIds| == |input.items|
    requires forall k :: 0 <= k < |input.items| ==> input.items[k].quantity >= 0.0 && input.items[k].price >= 0.0
    requires input.taxRate >= 0.0 && input.discount <= 1.0
    ensures var inv := NewInvoice(input, itemIds, invoiceId, now);
      inv.subtotal >= 0.0 && inv.taxAmount >= 0.0 && inv.total >= 0.0
  {
    var items := ItemsFrom(input.items, itemIds);
    forall k | 0 <= k < |items| ensures items[k].subtotal >= 0.0 {
      assert items[k].subtotal == ItemSubtotal(input.items[k].quantity, input.items[k].price);
    }
    TotalsNonNegative(items, input.taxRate, input.discount);
  }

  /** The number of fresh identifiers an update needs: one per supplied item. */
  function FreshIdsNeeded(patch: InvoicePatch): nat {
    if patch.items.Some? then |patch.items.value| else 0
  }

  /** The invoice `updateInvoice` stores: each field the patch omits keeps its value, identity and
      creation time are kept, supplied items are rebuilt with reused identifiers, and the totals are
      recomputed from the merged items, tax rate and discount. */
  function MergeInvoice(previous: Invoice, patch: InvoicePatch, freshIds: seq<string>, now: string): (r: Invoice)
    requires |freshIds| == FreshIdsNeeded(patch)
    ensures r.id == previous.id && r.clientId == previous.clientId && r.createdAt == previous.createdAt
    ensures r.updatedAt == now
    ensures r.clientName == patch.clientName.GetOr(previous.clientName)
    ensures r.invoiceNumber == patch.invoiceNumber.GetOr(previous.invoiceNumber)
    ensures r.date == patch.date.GetOr(previous.date)
    ensures r.dueDate == (if patch.dueDate.Some? then patch.dueDate else previous.dueDate)
    ensures r.notes == (if patch.notes.Some? then patch.notes else previous.notes)
    ensures r.taxRate == patch.taxRate.GetOr(previous.taxRate)
    ensures r.discount == patch.discount.GetOr(previous.discount)
    ensures patch.items.None? ==> r.items == previous.items
    ensures patch.items.Some? ==>
      r.items == ItemsFrom(patch.items.value, ReusedIds(previous.items, patch.items.value, freshIds))
    ensures TotalsConsistent(r)
    ensures patch.items.Some? || ItemsConsistent(previous.items) ==> ItemsConsistent(r.items)
  {
    var items :=
      if patch.items.Some?
      then ItemsFrom(patch.items.value, ReusedIds(previous.items, patch.items.value, freshIds))
      else previous.items;
    var taxRate := if patch.taxRate.Some? then patch.taxRate.value else previous.taxRate;
    var discount := if patch.discount.Some? then patch.discount.value else previous.discount;
    var totals := InvoiceTotals(items, taxRate, discount);
    previous.(
      clientName := patch.clientName.GetOr(previous.clientName),
      invoiceNumber := patch.invoiceNumber.GetOr(previous.invoiceNumber),
      date := patch.date.GetOr(previous.date),
      dueDate := if patch.dueDate.Some? then patch.dueDate else previous.dueDate,
      items := items,
      subtotal := totals.subtotal,
      taxRate := taxRate,
      taxAmount := totals.taxAmount,
      discount := discount,
      total := totals.total,
      notes := if patch.notes.Some? then patch.notes else previous.notes,
      updatedAt := now)
  }

  // ---------------------------------------------------------------------------------------------
  // Queries and removal on the collection

  /** `invoices.findIndex(inv => inv.id === id)`: the first position with that id, or -1. */
  function FindIndex(invoices: seq<Invoice>, id: string): (r: int)
    ensures -1 <= r < |invoices|
    ensures r == -1 <==> forall j :: 0 <= j < |invoices| ==> invoices[j].id != id
    ensures r >= 0 ==> invoices[r].id == id && forall j :: 0 <= j < r ==> invoices[j].id != id
  {
    if invoices == [] then -1
    else if invoices[0].id == id then 0
    else
      var r := FindIndex(invoices[1..], id);
      if r == -1 then -1 else r + 1
  }

  /** No invoice before position `j` carries the id of the one at `j`. */
  predicate FirstWithId(invoices: seq<Invoice>, j: nat)
    requires j < |invoices|
  {
    forall i :: 0 <= i < j ==> invoices[i].id != invoices[j].id
  }

  /** `invoices.filter(inv => inv.id !== id)`. */
  function RemoveById(invoices: seq<Invoice>, id: string): (r: seq<Invoice>)
    ensures |r| <= |invoices|
    ensures forall x :: x in r <==> x in invoices && x.id != id
  {
    if invoices == [] then []
    else if invoices[0].id == id then RemoveById(invoices[1..], id)
    else [invoices[0]] + RemoveById(invoices[1..], id)
  }

  /** Removal keeps the order of what remains: it acts on each part of the collection separately. */
  lemma {:induction false} RemoveByIdAppend(a: seq<Invoice>, b: seq<Invoice>, id: string)
    ensures RemoveById(a + b, id) == RemoveById(a, id) + RemoveById(b, id)
  {
    if a == [] {
      assert a + b == b;
    } else {
      assert (a + b)[0] == a[0] && (a + b)[1..] == a[1..] + b;
      RemoveByIdAppend(a[1..], b, id);
    }
  }

  /** Removing an id no invoice carries leaves the collection as it is. */
  lemma {:induction false} RemoveAbsentId(invoices: seq<Invoice>, id: string)
    requires forall j :: 0 <= j < |invoices| ==> invoices[j].id != id
    ensures RemoveById(invoices, id) == invoices
  {
    if invoices != [] {
      RemoveAbsentId(invoices[1..], id);
    }
  }

  /** After a removal, looking the id up finds nothing. */
  lemma RemovedIdNotFound(invoices: seq<Invoice>, id: string)
    ensures FindIndex(RemoveById(invoices, id), id) == -1
  {
    var r := RemoveById(invoices, id);
    forall j | 0 <= j < |r| ensures r[j].id != id {
      assert r[j] in r;
    }
  }

  /** An invoice appended under an id no other invoice carries is found at the end. */
  lemma AppendedIsFound(invoices: seq<Invoice>, inv: Invoice)
    requires FindIndex(invoices, inv.id) == -1
    ensures FindIndex(invoices + [inv], inv.id) == |invoices|
  {
    var s := invoices + [inv];
    assert s[|invoices|] == inv;
    forall j | 0 <= j < |invoices| ensures s[j].id != inv.id {
      assert s[j] == invoices[j];
    }
  }

  // ---------------------------------------------------------------------------------------------
  // The AI-fill mapping

  /** `setFullInvoice`: the parsed fields in the creation form's shape. A missing client name becomes
      the empty string, missing items an empty list, and item names become descriptions; no number,
      date or total is made up. */
  function SetFullInvoice(data: ParsedInvoiceData): (f: FormData)
    ensures f.clientName == data.clientName.GetOr("")
    ensures f.invoiceNumber == data.invoiceNumber && f.date == data.date && f.dueDate == data.dueDate
    ensures f.taxRate == data.taxRate && f.discount == data.discount && f.notes == data.notes
    ensures data.items.None? ==> f.items == []
    ensures data.items.Some? ==> |f.items| == |data.items.value| && forall k :: 0 <= k < |f.items| ==>
      f.items[k] == ItemInput(data.items.value[k].name, data.items.value[k].quantity, data.items.value[k].price)
  {
    var parsed := data.items.GetOr([]);
    var items := seq(|parsed|, k requires 0 <= k < |parsed| =>
      ItemInput(parsed[k].name, parsed[k].quantity, parsed[k].price));
    FormData(data.clientName.GetOr(""), data.invoiceNumber, data.date, data.dueDate, items,
             data.taxRate, data.discount, data.notes)
  }

  // ---------------------------------------------------------------------------------------------
  // The store

  /** What durable storage holds under the store's key: nothing (or an empty string), something that
      does not read back as JSON, or a saved collection. */
  datatype StoredValue = Missing | Unreadable | Saved(invoices: seq<Invoice>)

  /** What `loadInvoices` makes of the stored value: a missing or unreadable value is an empty
      collection. */
  function Loaded(stored: StoredValue): (r: seq<Invoice>)
    ensures stored.Saved? ==> r == stored.invoices
    ensures !stored.Saved? ==> r == []
  {
    match stored
    case Saved(invoices) => invoices
    case _ => []
  }

  class Store {
    var invoices: seq<Invoice>
    var isLoading: bool
    /** The durable storage slot the store reads and overwrites. */
    var storage: StoredValue

    /** A fresh store over the given storage, empty until loaded. */
    constructor (storage: StoredValue)
      ensures invoices == [] && !isLoading && this.storage == storage
    {
      invoices := [];
      isLoading := false;
      this.storage := storage;
    }

    /** `loadInvoices`: replaces the collection with what storage holds, or with an empty one. */
    method LoadInvoices()
      modifies this
      ensures invoices == Loaded(old(storage)) && !isLoading && storage == old(storage)
    {
      isLoading := true;
      if storage.Saved? {
        invoices := storage.invoices;
      } else {
        invoices := [];
      }
      isLoading := false;
    }

    /** `saveInvoices`: overwrites storage with the whole collection. */
    method SaveInvoices()
      modifies this`storage
      ensures storage == Saved(invoices)
    {
      storage := Saved(invoices);
    }

    /** `addInvoice`: appends one new invoice, leaves the earlier ones as they are and persists. */
    method AddInvoice(input: CreateInvoiceInput, itemIds: seq<string>, invoiceId: string, now: string)
      returns (inv: Invoice)
      requires |itemIds| == |input.items|
      modifies this
      ensures inv == NewInvoice(input, itemIds, invoiceId, now)
      ensures invoices == old(invoices) + [inv]
      ensures storage == Saved(invoices) && isLoading == old(isLoading)
    {
      inv := NewInvoice(input, itemIds, invoiceId, now);
      invoices := invoices + [inv];
      SaveInvoices();
    }

    /** `updateInvoice`: an unknown id changes nothing (the application only logs a warning);
        otherwise only the entry at the found position is replaced by its merge with the patch, and
        the collection is persisted. */
    method UpdateInvoice(id: string, patch: InvoicePatch, freshIds: seq<string>, now: string)
      requires |freshIds| == FreshIdsNeeded(patch)
      modifies this
      ensures isLoading == old(isLoading)
      ensures FindIndex(old(invoices), id) == -1 ==> invoices == old(invoices) && storage == old(storage)
      ensures FindIndex(old(invoices), id) >= 0 ==>
        var i := FindIndex(old(invoices), id);
        && invoices == old(invoices)[i := MergeInvoice(old(invoices)[i], patch, freshIds, now)]
        && storage == Saved(invoices)
    {
      var invoiceIndex := FindIndex(invoices, id);
      if invoiceIndex == -1 {
        return;
      }
      var updated := MergeInvoice(invoices[invoiceIndex], patch, freshIds, now);
      invoices := invoices[invoiceIndex := updated];
      SaveInvoices();
    }

    /** `deleteInvoice`: drops every invoice with the id and persists. */
    method DeleteInvoice(id: string)
      modifies this
      ensures invoices == RemoveById(old(invoices), id)
      ensures storage == Saved(invoices) && isLoading == old(isLoading)
    {
      invoices := RemoveById(invoices, id);
      SaveInvoices();
    }

    /** `getInvoice`: the first invoice with the id, or none. */
    function GetInvoice(id: string): (r: Option<Invoice>)
      reads this
      ensures r.None? <==> forall j :: 0 <= j < |invoices| ==> invoices[j].id != id
      ensures r.Some? ==> r.value.id == id
      ensures r.Some? ==> exists j :: 0 <= j < |invoices| && invoices[j] == r.value && FirstWithId(invoices, j)
    {
      var i := FindIndex(invoices, id);
      if i == -1 then None else Some(invoices[i])
    }

    /** `generateNextInvoiceNumber` over the current collection. */
    function GenerateNextInvoiceNumber(): (r: string)
      reads this
      ensures IsSequentialNumber(r)
      ensures forall i :: 0 <= i < |invoices| && IsSequentialNumber(invoices[i].invoiceNumber) ==>
        SuffixValue(invoices[i].invoiceNumber) < SuffixValue(r)
      ensures (exists i :: 0 <= i < |invoices| && IsSequentialNumber(invoices[i].invoiceNumber)) ==>
        exists i :: 0 <= i < |invoices| && IsSequentialNumber(invoices[i].invoiceNumber)
          && SuffixValue(invoices[i].invoiceNumber) + 1 == SuffixValue(r)
      ensures (forall i :: 0 <= i < |invoices| ==> !IsSequentialNumber(invoices[i].invoiceNumber)) ==>
        SuffixValue(r) == 1
      ensures forall excludeId :: IsInvoiceNumberUnique(invoices, r, excludeId)
    {
      NextAboveAll(invoices);
      NextNumberIsUnique(invoices);
      NextInvoiceNumber(invoices)
    }

    /** `isInvoiceNumberUnique` over the current collection: no invoice but the excluded one carries
        the number up to letter case, so the number the store suggests always passes. */
    function IsNumberUnique(number: string, excludeId: Option<string>): (r: bool)
      reads this
      ensures r <==> forall i :: 0 <= i < |invoices| ==>
        !(SameNumber(invoices[i].invoiceNumber, number) && excludeId != Some(invoices[i].id))
      ensures number == GenerateNextInvoiceNumber() ==> r
    {
      IsInvoiceNumberUnique(invoices, number, excludeId)
    }
  }

  /** Saving and then loading gives back the collection that was saved. */
  method SaveThenLoad(store: Store)
    modifies store
    ensures store.invoices == old(store.invoices) && store.storage == Saved(old(store.invoices))
  {
    store.SaveInvoices();
    store.LoadInvoices();
  }

  /** The end-to-end case of the store's tests: two lines at 10% tax and no discount. */
  lemma NewInvoiceExample()
    ensures var inv := NewInvoice(
        CreateInvoiceInput("Test Client", "INV-001", "2026-01-20", None,
          [ItemInput("Service 1", 2.0, 100.0), ItemInput("Service 2", 1.0, 50.0)], 0.1, 0.0, None),
        ["a", "b"], "inv", "t0");
      && |inv.items| == 2 && inv.items[0].subtotal == 200.0 && inv.items[1].subtotal == 50.0
      && inv.subtotal == 250.0 && inv.taxAmount == 25.0 && inv.total == 275.0
  {
    var input := CreateInvoiceInput("Test Client", "INV-001", "2026-01-20", None,
      [ItemInput("Service 1", 2.0, 100.0), ItemInput("Service 2", 1.0, 50.0)], 0.1, 0.0, None);
    var inv := NewInvoice(input, ["a", "b"], "inv", "t0");
    var items := inv.items;
    assert items[..1] == [items[0]];
    assert SumSubtotals(items) == 250.0;
    RoundsToUnique(250.0, 250.0);
    RoundsToUnique(250.0 * 0.1, 25.0);
    RoundsToUnique(250.0 * (1.0 + 0.1 - 0.0), 275.0);
  }

  /** The update case of the store's tests: doubling a line's quantity recomputes every total and
      keeps the line's identifier. */
  lemma MergeItemsExample()
    ensures var previous := Invoice("inv", None, "Client", "INV-001", "2026-01-20", None,
        [InvoiceItem("item-1", "Item", 1.0, 100.0, 100.0)], 100.0, 0.1, 10.0, 0.0, 110.0, None, "t0", "t0");
      var r := MergeInvoice(previous,
        InvoicePatch(None, None, None, None, Some([ItemInput("Item", 2.0, 100.0)]), None, None, None),
        ["fresh"], "t1");
      && r.subtotal == 200.0 && r.taxAmount == 20.0 && r.total == 220.0
      && r.items[0].id == "item-1" && r.createdAt == "t0" && r.updatedAt == "t1"
  {
    var previous := Invoice("inv", None, "Client", "INV-001", "2026-01-20", None,
      [InvoiceItem("item-1", "Item", 1.0, 100.0, 100.0)], 100.0, 0.1, 10.0, 0.0, 110.0, None, "t0", "t0");
    var inputs := [ItemInput("Item", 2.0, 100.0)];
    var patch := InvoicePatch(None, None, None, None, Some(inputs), None, None, None);
    var r := MergeInvoice(previous, patch, ["fresh"], "t1");
    ReusedIdKeepsMatch(previous.items, 0, inputs[0], "fresh");
    assert r.items[0].id == "item-1";
    assert r.items[..0] == [];
    assert SumSubtotals(r.items) == 200.0;
    RoundsToUnique(200.0, 200.0);
    RoundsToUnique(200.0 * 0.1, 20.0);
    RoundsToUnique(200.0 * (1.0 + 0.1 - 0.0), 220.0);
  }
}
