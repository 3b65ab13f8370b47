/** The invoice editor of app/create.tsx: field validation, the list of items being edited, loading an
    existing invoice for editing and the save gate that either reports errors or hands the form to the
    store. `new Date(text)` validity is a parameter (`calendarValid`); the modal, analytics and
    deferred per-keystroke validation are outside. */
module InvoiceForm {
  import opened Wrappers
  import opened Text
  import opened InvoiceTypes
  import opened Money
  import opened InvoiceNumbers
  import opened InvoiceStore

  // ---------------------------------------------------------------------------------------------
  // Validators

  /** A JavaScript number as the form sees it: not a number, or a value. */
  datatype Num = NaN | Finite(x: real)

  /** `validateNumber(value, min, max)`: rejected when not a number, below `min`, or above `max`
      when one is given. */
  function ValidateNumber(value: Num, min: real, max: Option<real>): (ok: bool)
    ensures ok <==> value.Finite? && min <= value.x && (max.None? || value.x <= max.value)
  {
    if value.NaN? then false
    else if value.x < min then false
    else if max.Some? && value.x > max.value then false
    else true
  }

  /** `validateDate`: not blank, of the shape `YYYY-MM-DD`, and a date `new Date` accepts. */
  function ValidateDate(date: string, calendarValid: string -> bool): (ok: bool)
    ensures ok <==> IsDateShape(date) && calendarValid(date)
  {
    BlankIffAllWhitespace(date);
    if IsBlank(date) then false
    else if !IsDateShape(date) then false
    else calendarValid(date)
  }

  /** The date check never depends on the calendar for blank text or text of another shape. */
  lemma MalformedDateRejected(date: string, calendarValid: string -> bool)
    requires AllWhitespace(date) || !IsDateShape(date)
    ensures !ValidateDate(date, calendarValid)
  {
  }

  // ---------------------------------------------------------------------------------------------
  // Field rules

  datatype Field =
    | ClientNameField(text: string)
    | InvoiceNumberField(text: string)
    | DateField(text: string)
    | DueDateField(text: string)
    | TaxRateField(value: Num)
    | DiscountField(value: Num)
    | QuantityField(value: Num)
    | PriceField(value: Num)
    | DescriptionField(text: string)

  /** The messages the field rules show. */
  datatype Message =
    | ClientNameRequired | InvoiceNumberRequired | InvoiceNumberInUse | InvalidDate
    | TaxRateRange | DiscountRange | QuantityPositive | PriceNonNegative | DescriptionRequired

  /** The text of each message, as the form shows it. */
  function MessageText(m: Message): string {
    match m
    case ClientNameRequired => "Client name is required"
    case InvoiceNumberRequired => "Invoice number is required"
    case InvoiceNumberInUse => "Invoice number already in use"
    case InvalidDate => "Invalid date format (YYYY-MM-DD)"
    case TaxRateRange => "Tax rate must be between 0 and 1"
    case DiscountRange => "Discount must be between 0 and 1 (0% to 100%)"
    case QuantityPositive => "Quantity must be greater than 0"
    case PriceNonNegative => "Price cannot be negative"
    case DescriptionRequired => "Description is required"
  }

  /** The context a field is checked in: the stored invoices, the invoice being edited (if any) and
      the calendar check. */
  datatype Context = Context(invoices: seq<Invoice>, excludeId: Option<string>, calendarValid: string -> bool)

  /** What each field rule accepts: text that is not blank for names and descriptions (and, for the
      invoice number, one no other invoice carries), a `YYYY-MM-DD` calendar date (the due date may
      also be empty), rates within [0, 1], a quantity of at least 0.01 and a price that is not
      negative. */
  predicate FieldAccepts(field: Field, ctx: Context) {
    match field
    case ClientNameField(text) => !AllWhitespace(text)
    case InvoiceNumberField(text) =>
      !AllWhitespace(text) && IsInvoiceNumberUnique(ctx.invoices, Trim(text), ctx.excludeId)
    case DateField(text) => IsDateShape(text) && ctx.calendarValid(text)
    case DueDateField(text) => text == [] || (IsDateShape(text) && ctx.calendarValid(text))
    case TaxRateField(value) => value.Finite? && 0.0 <= value.x <= 1.0
    case DiscountField(value) => value.Finite? && 0.0 <= value.x <= 1.0
    case QuantityField(value) => value.Finite? && 0.01 <= value.x
    case PriceField(value) => value.Finite? && 0.0 <= value.x
    case DescriptionField(text) => !AllWhitespace(text)
  }

  /** The message a rejected field shows. */
  function RejectionMessage(field: Field): Message {
    match field
    case ClientNameField(_) => ClientNameRequired
    case InvoiceNumberField(text) => if AllWhitespace(text) then InvoiceNumberRequired else InvoiceNumberInUse
    case DateField(_) => InvalidDate
    case DueDateField(_) => InvalidDate
    case TaxRateField(_) => TaxRateRange
    case DiscountField(_) => DiscountRange
    case QuantityField(_) => QuantityPositive
    case PriceField(_) => PriceNonNegative
    case DescriptionField(_) => DescriptionRequired
  }

  /** A text field that must not be blank: `!value.trim()` shows the message. */
  function RequiredText(text: string, m: Message): (r: Option<Message>)
    ensures r.None? <==> !AllWhitespace(text)
    ensures r.Some? ==> r.value == m
  {
    BlankIffAllWhitespace(text);
    if IsBlank(text) then Some(m) else None
  }

  /** The invoice number: required, then unique once trimmed among the other invoices. */
  function ValidateInvoiceNumber(text: string, ctx: Context): (r: Option<Message>)
    ensures r.None? <==> !AllWhitespace(text) && IsInvoiceNumberUnique(ctx.invoices, Trim(text), ctx.excludeId)
    ensures r.Some? ==> r.value == if AllWhitespace(text) then InvoiceNumberRequired else InvoiceNumberInUse
  {
    BlankIffAllWhitespace(text);
    if IsBlank(text) then Some(InvoiceNumberRequired)
    else if !IsInvoiceNumberUnique(ctx.invoices, Trim(text), ctx.excludeId) then Some(InvoiceNumberInUse)
    else None
  }

  /** `validateField`: the message for an invalid value, none for a valid one. */
  function ValidateField(field: Field, ctx: Context): (r: Option<Message>)
    ensures r.None? <==> FieldAccepts(field, ctx)
    ensures r.Some? ==> r.value == RejectionMessage(field)
  {
    match field
    case ClientNameField(text) => RequiredText(text, ClientNameRequired)
    case InvoiceNumberField(text) => ValidateInvoiceNumber(text, ctx)
    case DateField(text) =>
      if !ValidateDate(text, ctx.calendarValid) then Some(InvalidDate) else None
    case DueDateField(text) =>
      if text != [] && !ValidateDate(text, ctx.calendarValid) then Some(InvalidDate) else None
    case TaxRateField(value) =>
      if !ValidateNumber(value, 0.0, Some(1.0)) then Some(TaxRateRange) else None
    case DiscountField(value) =>
      if !ValidateNumber(value, 0.0, Some(1.0)) then Some(DiscountRange) else None
    case QuantityField(value) =>
      if !ValidateNumber(value, 0.01, None) then Some(QuantityPositive) else None
    case PriceField(value) =>
      if !ValidateNumber(value, 0.0, None) then Some(PriceNonNegative) else None
    case DescriptionField(text) => RequiredText(text, DescriptionRequired)
  }

  /** Editing an invoice does not make its own number count as taken. */
  lemma OwnNumberAllowedWhenEditing(ctx: Context, inv: Invoice)
    requires ctx.invoices == [inv] && ctx.excludeId == Some(inv.id) && !AllWhitespace(inv.invoiceNumber)
    ensures ValidateField(InvoiceNumberField(inv.invoiceNumber), ctx) == None
  {
  }

  /** A number another invoice already carries is rejected, whatever its case or surrounding spaces. */
  lemma TakenNumberRejected(ctx: Context, other: Invoice, typed: string)
    requires other in ctx.invoices && ctx.excludeId != Some(other.id)
    requires !AllWhitespace(typed) && SameNumber(other.invoiceNumber, Trim(typed))
    ensures ValidateField(InvoiceNumberField(typed), ctx) == Some(InvoiceNumberInUse)
  {
    var i :| 0 <= i < |ctx.invoices| && ctx.invoices[i] == other;
  }

  // ---------------------------------------------------------------------------------------------
  // Collected errors

  datatype ItemPart = Description | Quantity | Price

  /** The keys of the `validationErrors` record: `clientName`, ..., `item_<i>_<part>`. */
  datatype ErrorKey =
    | ClientNameKey | InvoiceNumberKey | DateKey | DueDateKey | TaxRateKey | DiscountKey
    | ItemKey(index: nat, part: ItemPart)

  /** The record of errors in insertion order, which is the order its keys and values list. */
  type Errors = seq<(ErrorKey, Message)>

  function Entry(key: ErrorKey, message: Option<Message>): (e: Errors)
    ensures message.None? ==> e == []
    ensures message.Some? ==> e == [(key, message.value)]
  {
    if message.Some? then [(key, message.value)] else []
  }

  /** The errors of the form's own fields, in the order `handleSave` checks them. */
  function HeaderErrors(clientName: string, invoiceNumber: string, date: string, dueDate: string,
                        taxRate: real, discount: real, ctx: Context): Errors
  {
    Entry(ClientNameKey, ValidateField(ClientNameField(clientName), ctx))
    + Entry(InvoiceNumberKey, ValidateField(InvoiceNumberField(invoiceNumber), ctx))
    + Entry(DateKey, ValidateField(DateField(date), ctx))
    + Entry(DueDateKey, ValidateField(DueDateField(dueDate), ctx))
    + Entry(TaxRateKey, ValidateField(TaxRateField(Finite(taxRate)), ctx))
    + Entry(DiscountKey, ValidateField(DiscountField(Finite(discount)), ctx))
  }

  /** The errors of the item at position `index`: description, quantity, price. */
  function ItemEntries(index: nat, item: ItemInput, ctx: Context): Errors {
    Entry(ItemKey(index, Description), ValidateField(DescriptionField(item.description), ctx))
    + Entry(ItemKey(index, Quantity), ValidateField(QuantityField(Finite(item.quantity)), ctx))
    + Entry(ItemKey(index, Price), ValidateField(PriceField(Finite(item.price)), ctx))
  }

  /** The errors of all items, item by item. */
  function ItemErrors(items: seq<ItemInput>, ctx: Context): Errors {
    if items == [] then []
    else ItemErrors(items[..|items| - 1], ctx) + ItemEntries(|items| - 1, items[|items| - 1], ctx)
  }

  /** The errors of the first `i + 1` items extend those of the first `i` by the entries of item `i`. */
  lemma ItemErrorsPrefix(items: seq<ItemInput>, i: nat, ctx: Context)
    requires i < |items|
    ensures ItemErrors(items[..i + 1], ctx) == ItemErrors(items[..i], ctx) + ItemEntries(i, items[i], ctx)
  {
    assert items[..i + 1][..i] == items[..i];
  }

  /** An item `handleSave` accepts: a description that is not blank, a quantity of at least 0.01
      and a price that is not negative. */
  predicate ItemValid(item: ItemInput) {
    !AllWhitespace(item.description) && 0.01 <= item.quantity && 0.0 <= item.price
  }

  /** No header error is recorded exactly when every header field is accepted. */
  lemma HeaderErrorsEmptyIffAccepted(clientName: string, invoiceNumber: string, date: string, dueDate: string,
                                     taxRate: real, discount: real, ctx: Context)
    ensures HeaderErrors(clientName, invoiceNumber, date, dueDate, taxRate, discount, ctx) == [] <==>
      HeaderAccepted(clientName, invoiceNumber, date, dueDate, taxRate, discount, ctx)
  {
  }

  predicate HeaderAccepted(clientName: string, invoiceNumber: string, date: string, dueDate: string,
                           taxRate: real, discount: real, ctx: Context) {
    && FieldAccepts(ClientNameField(clientName), ctx)
    && FieldAccepts(InvoiceNumberField(invoiceNumber), ctx)
    && FieldAccepts(DateField(date), ctx)
    && FieldAccepts(DueDateField(dueDate), ctx)
    && FieldAccepts(TaxRateField(Finite(taxRate)), ctx)
    && FieldAccepts(DiscountField(Finite(discount)), ctx)
  }

  lemma ItemEntriesEmptyIffValid(index: nat, item: ItemInput, ctx: Context)
    ensures ItemEntries(index, item, ctx) == [] <==> ItemValid(item)
  {
    var d := ValidateField(DescriptionField(item.description), ctx);
    var q := ValidateField(QuantityField(Finite(item.quantity)), ctx);
    var p := ValidateField(PriceField(Finite(item.price)), ctx);
    assert d.None? <==> !AllWhitespace(item.description);
    assert q.None? <==> 0.01 <= item.quantity;
    assert p.None? <==> 0.0 <= item.price;
    var e := Entry(ItemKey(index, Description), d) + Entry(ItemKey(index, Quantity), q) + Entry(ItemKey(index, Price), p);
    assert |e| == (if d.None? then 0 else 1) + (if q.None? then 0 else 1) + (if p.None? then 0 else 1);
  }

  predicate AllItemsValid(items: seq<ItemInput>) {
    forall i :: 0 <= i < |items| ==> ItemValid(items[i])
  }

  /** All items are valid exactly when all but the last are and the last one is. */
  lemma AllItemsValidSnoc(items: seq<ItemInput>)
    requires items != []
    ensures AllItemsValid(items) <==> AllItemsValid(items[..|items| - 1]) && ItemValid(items[|items| - 1])
  {
    var init := items[..|items| - 1];
    if AllItemsValid(init) && ItemValid(items[|items| - 1]) {
      forall i | 0 <= i < |items| ensures ItemValid(items[i]) {
        if i < |init| { assert items[i] == init[i]; }
      }
    }
  }

  /** No item error is recorded exactly when every item is valid. */
  lemma {:induction false} ItemErrorsEmptyIffValid(items: seq<ItemInput>, ctx: Context)
    ensures ItemErrors(items, ctx) == [] <==> AllItemsValid(items)
  {
    if items != [] {
      var init, last := items[..|items| - 1], items[|items| - 1];
      ItemErrorsEmptyIffValid(init, ctx);
      ItemEntriesEmptyIffValid(|items| - 1, last, ctx);
      AllItemsValidSnoc(items);
      var before, here := ItemErrors(init, ctx), ItemEntries(|items| - 1, last, ctx);
      assert ItemErrors(items, ctx) == before + here;
      assert |before + here| == |before| + |here|;
    }
  }

  /** Every item error is keyed by the position of an item that exists. */
  lemma {:induction false} ItemErrorKeys(items: seq<ItemInput>, ctx: Context)
    ensures forall e :: e in ItemErrors(items, ctx) ==> e.0.ItemKey? && e.0.index < |items|
  {
    if items != [] {
      ItemErrorKeys(items[..|items| - 1], ctx);
    }
  }

  // ---------------------------------------------------------------------------------------------
  // Item-list edits

  /** The item `handleAddItem` appends. */
  const NewItem := ItemInput("", 1.0, 0.0)

  /** The item `handleItemUpdate` creates in an empty slot before setting the field. */
  const BlankItem := ItemInput("", 0.0, 0.0)

  /** One field of an item set to a new value. */
  datatype ItemChange = SetDescription(description: string) | SetQuantity(quantity: real) | SetPrice(price: real)

  function ApplyChange(item: ItemInput, change: ItemChange): (r: ItemInput)
    ensures change.SetDescription? ==> r == item.(description := change.description)
    ensures change.SetQuantity? ==> r == item.(quantity := change.quantity)
    ensures change.SetPrice? ==> r == item.(price := change.price)
  {
    match change
    case SetDescription(d) => ItemInput(d, item.quantity, item.price)
    case SetQuantity(q) => ItemInput(item.description, q, item.price)
    case SetPrice(p) => ItemInput(item.description, item.quantity, p)
  }

  /** `items.filter((_, i) => i !== index)`. */
  function WithoutIndex(items: seq<ItemInput>, index: int): (r: seq<ItemInput>)
    ensures 0 <= index < |items| ==> |r| == |items| - 1
    ensures 0 <= index < |items| ==> forall k :: 0 <= k < index ==> r[k] == items[k]
    ensures 0 <= index < |items| ==> forall k :: index <= k < |r| ==> r[k] == items[k + 1]
    ensures !(0 <= index < |items|) ==> r == items
  {
    if items == [] then []
    else
      var init := WithoutIndex(items[..|items| - 1], index);
      if |items| - 1 == index then init else init + [items[|items| - 1]]
  }

  // ---------------------------------------------------------------------------------------------
  // Loading an invoice for editing

  /** `text.split('T')[0]`: the text before the first `T`. */
  function BeforeT(text: string): (r: string)
    ensures |r| <= |text| && r == text[..|r|] && NoT(r)
    ensures r == text || text[|r|] == 'T'
  {
    if text == [] then []
    else if text[0] == 'T' then []
    else [text[0]] + BeforeT(text[1..])
  }

  predicate NoT(s: string) {
    forall i :: 0 <= i < |s| ==> s[i] != 'T'
  }

  /** The legacy discount conversion: a discount above 1 on an invoice with a positive subtotal was
      stored as an amount; it becomes the fraction of the subtotal, at most 1. Any other discount is
      kept. */
  function NormalizeDiscount(discount: real, subtotal: real): (r: real)
    ensures discount > 1.0 && subtotal > 0.0 ==> 0.0 < r <= 1.0
    ensures discount > 1.0 && subtotal > 0.0 && discount <= subtotal ==> r * subtotal == discount
    ensures discount > 1.0 && subtotal > 0.0 && discount >= subtotal ==> r == 1.0
    ensures !(discount > 1.0 && subtotal > 0.0) ==> r == discount
  {
    if discount > 1.0 && subtotal > 0.0 then
      var fraction := discount / subtotal;
      if fraction < 1.0 then fraction else 1.0
    else discount
  }

  /** The form's items for an existing invoice's lines: identifiers and subtotals dropped. */
  function EditableItems(items: seq<InvoiceItem>): (r: seq<ItemInput>)
    ensures |r| == |items|
    ensures forall k :: 0 <= k < |r| ==>
      r[k] == ItemInput(items[k].description, items[k].quantity, items[k].price)
  {
    seq(|items|, k requires 0 <= k < |items| => ItemInput(items[k].description, items[k].quantity, items[k].price))
  }

  // ---------------------------------------------------------------------------------------------
  // Saving

  /** The `input` object `handleSave` passes on: names trimmed, an empty due date and blank notes
      left out. */
  function SaveInput(clientName: string, invoiceNumber: string, date: string, dueDate: string,
                     items: seq<ItemInput>, taxRate: real, discount: real, notes: string): (input: CreateInvoiceInput)
    ensures input.clientName == Trim(clientName) && input.invoiceNumber == Trim(invoiceNumber)
    ensures input.date == date && input.items == items && input.taxRate == taxRate && input.discount == discount
    ensures input.dueDate == if dueDate == [] then None else Some(dueDate)
    ensures input.notes == if AllWhitespace(notes) then None else Some(Trim(notes))
  {
    BlankIffAllWhitespace(notes);
    var trimmedNotes := Trim(notes);
    CreateInvoiceInput(Trim(clientName), Trim(invoiceNumber), date,
                       if dueDate == [] then None else Some(dueDate), items, taxRate, discount,
                       if trimmedNotes == [] then None else Some(trimmedNotes))
  }

  /** `updateInvoice(params.id, input)` receives the input as a partial update: every field is
      given, except that an absent due date or note is `undefined`. */
  function PatchOf(input: CreateInvoiceInput): (p: InvoicePatch)
    ensures p.clientName == Some(input.clientName) && p.invoiceNumber == Some(input.invoiceNumber)
    ensures p.date == Some(input.date) && p.items == Some(input.items)
    ensures p.taxRate == Some(input.taxRate) && p.discount == Some(input.discount)
    ensures p.dueDate == input.dueDate && p.notes == input.notes
  {
    InvoicePatch(Some(input.clientName), Some(input.invoiceNumber), Some(input.date), input.dueDate,
                 Some(input.items), Some(input.taxRate), Some(input.discount), input.notes)
  }

  /** As written: saving an edit whose due date or notes are absent keeps the old ones, since the
      store's merge treats the missing value as "not changed". Through the screen only the notes can
      be cleared: the date picker always reports a full date. */
  lemma EditCannotClearDueDateOrNotes(previous: Invoice, input: CreateInvoiceInput, freshIds: seq<string>, now: string)
    requires |freshIds| == |input.items|
    ensures input.dueDate.None? ==> MergeInvoice(previous, PatchOf(input), freshIds, now).dueDate == previous.dueDate
    ensures input.notes.None? ==> MergeInvoice(previous, PatchOf(input), freshIds, now).notes == previous.notes
  {
  }

  /** An invoice with notes, edited to have none, still has them after saving. */
  lemma ClearedNotesSurvive()
    ensures var previous := Invoice("inv", None, "Client", "INV-001", "2026-01-20", Some("2026-02-20"),
        [], 0.0, 0.0, 0.0, 0.0, 0.0, Some("Net 30"), "t0", "t0");
      var input := SaveInput("Client", "INV-001", "2026-01-20", "2026-02-20", [], 0.0, 0.0, " ");
      && input.notes == None
      && MergeInvoice(previous, PatchOf(input), [], "t1").notes == Some("Net 30")
  {
    var input := SaveInput("Client", "INV-001", "2026-01-20", "2026-02-20", [], 0.0, 0.0, " ");
    assert AllWhitespace(" ");
  }

  /** Corrected: an edit stores exactly what the form holds, including a cleared due date or
      notes. */
  function MergeFormInput(previous: Invoice, input: CreateInvoiceInput, freshIds: seq<string>, now: string): (r: Invoice)
    requires |freshIds| == |input.items|
    ensures r.id == previous.id && r.createdAt == previous.createdAt && r.updatedAt == now
    ensures r.clientName == input.clientName && r.invoiceNumber == input.invoiceNumber && r.date == input.date
    ensures r.dueDate == input.dueDate && r.notes == input.notes
    ensures r.taxRate == input.taxRate && r.discount == input.discount
    ensures |r.items| == |input.items|
    ensures forall k :: 0 <= k < |r.items| ==> r.items[k].description == input.items[k].description
    ensures forall k :: 0 <= k < |r.items| ==> r.items[k].quantity == input.items[k].quantity
    ensures forall k :: 0 <= k < |r.items| ==> r.items[k].price == input.items[k].price
    ensures ItemsConsistent(r.items) && TotalsConsistent(r)
  {
    MergeInvoice(previous, PatchOf(input), freshIds, now).(dueDate := input.dueDate, notes := input.notes)
  }

  /** What `handleSave` did. */
  datatype SaveOutcome = NoItems | Invalid(message: Message) | Created(invoice: Invoice) | Updated

  /** `isEditing`: the screen was opened with a non-empty id. */
  predicate IsEditing(paramsId: Option<string>) {
    paramsId.Some? && paramsId.value != []
  }

  /** `isEditing ? params.id : undefined`. */
  function ExcludedId(paramsId: Option<string>): (r: Option<string>)
    ensures IsEditing(paramsId) ==> r == paramsId
    ensures !IsEditing(paramsId) ==> r == None
  {
    if IsEditing(paramsId) then paramsId else None
  }

  /** The editor's state. */
  class Form {
    var clientName: string
    var invoiceNumber: string
    var date: string
    var dueDate: string
    var items: seq<ItemInput>
    var taxRate: real
    var discount: real
    var notes: string
    var errors: Errors

    /** A new invoice: today's date, the suggested next number, no items, no tax and no discount. */
    constructor (today: string, nextNumber: string)
      ensures clientName == [] && invoiceNumber == nextNumber && date == today && dueDate == []
      ensures items == [] && taxRate == 0.0 && discount == 0.0 && notes == [] && errors == []
    {
      clientName := [];
      invoiceNumber := nextNumber;
      date := today;
      dueDate := [];
      items := [];
      taxRate := 0.0;
      discount := 0.0;
      notes := [];
      errors := [];
    }

    /** The effect that fills the form from the invoice being edited. */
    method LoadInvoice(existing: Invoice)
      modifies this
      ensures clientName == existing.clientName && invoiceNumber == existing.invoiceNumber
      ensures date == BeforeT(existing.date) && dueDate == BeforeT(existing.dueDate.GetOr([]))
      ensures items == EditableItems(existing.items) && taxRate == existing.taxRate
      ensures discount == NormalizeDiscount(existing.discount, existing.subtotal)
      ensures notes == existing.notes.GetOr([]) && errors == old(errors)
    {
      clientName := existing.clientName;
      invoiceNumber := existing.invoiceNumber;
      date := BeforeT(existing.date);
      dueDate := BeforeT(existing.dueDate.GetOr([]));
      items := EditableItems(existing.items);
      taxRate := existing.taxRate;
      var discountValue := existing.discount;
      if discountValue > 1.0 && existing.subtotal > 0.0 {
        discountValue := discountValue / existing.subtotal;
        if discountValue > 1.0 {
          discountValue := 1.0;
        }
      }
      discount := discountValue;
      notes := existing.notes.GetOr([]);
    }

    /** `handleAddItem`. */
    method AddItem()
      modifies this`items
      ensures items == old(items) + [NewItem]
    {
      items := items + [NewItem];
    }

    /** `handleDeleteItem`: the item at the position goes; the others keep their order. */
    method DeleteItem(index: int)
      modifies this`items
      ensures items == WithoutIndex(old(items), index)
    {
      items := WithoutIndex(items, index);
    }

    /** `handleItemUpdate`: only the named field of the item at the position changes; an empty slot
        just past the end first receives a blank item. */
    method UpdateItem(index: nat, change: ItemChange)
      requires index <= |items|
      modifies this`items
      ensures |items| == if index < |old(items)| then |old(items)| else index + 1
      ensures items[index] == ApplyChange(if index < |old(items)| then old(items)[index] else BlankItem, change)
      ensures forall k :: 0 <= k < |old(items)| && k != index ==> items[k] == old(items)[k]
    {
      var newItems := items;
      if index == |newItems| {
        newItems := newItems + [BlankItem];
      }
      newItems := newItems[index := ApplyChange(newItems[index], change)];
      items := newItems;
    }

    /** All errors `handleSave` would record, in its order. */
    function ValidationErrors(ctx: Context): Errors
      reads this
    {
      HeaderErrors(clientName, invoiceNumber, date, dueDate, taxRate, discount, ctx) + ItemErrors(items, ctx)
    }

    /** The input the form saves. */
    function Input(): CreateInvoiceInput
      reads this
    {
      SaveInput(clientName, invoiceNumber, date, dueDate, items, taxRate, discount, notes)
    }

    /** The checks of `handleSave`, the items checked one after the other as its `forEach` does. */
    method CollectErrors(ctx: Context) returns (found: Errors)
      ensures found == ValidationErrors(ctx)
    {
      var all := items;
      var itemErrors: Errors := [];
      var i := 0;
      while i < |all|
        invariant 0 <= i <= |all|
        invariant itemErrors == ItemErrors(all[..i], ctx)
      {
        ItemErrorsPrefix(all, i, ctx);
        itemErrors := itemErrors + ItemEntries(i, all[i], ctx);
        i := i + 1;
      }
      assert all[..|all|] == all;
      found := HeaderErrors(clientName, invoiceNumber, date, dueDate, taxRate, discount, ctx) + itemErrors;
    }

    /** `handleSave`: with no items nothing happens but the "add at least one item" message; with
        any error the errors are shown and nothing is stored; otherwise the input is added as a new
        invoice, or applied to the edited one. */
    method HandleSave(store: Store, paramsId: Option<string>, calendarValid: string -> bool,
                      itemIds: seq<string>, invoiceId: string, now: string) returns (outcome: SaveOutcome)
      requires |itemIds| == |items|
      modifies this`errors, store
      ensures old(items) == [] ==> outcome == NoItems
      ensures old(items) == [] || old(ValidationErrors(Context(store.invoices, ExcludedId(paramsId), calendarValid))) != [] ==>
        store.invoices == old(store.invoices) && store.storage == old(store.storage)
      ensures var found := old(ValidationErrors(Context(store.invoices, ExcludedId(paramsId), calendarValid)));
        old(items) != [] && found != [] ==> outcome == Invalid(found[0].1) && errors == found
      ensures var found := old(ValidationErrors(Context(store.invoices, ExcludedId(paramsId), calendarValid)));
        old(items) == [] || found == [] ==> errors == old(errors)
      ensures var found := old(ValidationErrors(Context(store.invoices, ExcludedId(paramsId), calendarValid)));
        old(items) != [] && found == [] && !IsEditing(paramsId) ==>
          outcome == Created(NewInvoice(old(Input()), itemIds, invoiceId, now))
          && store.invoices == old(store.invoices) + [outcome.invoice]
      ensures var found := old(ValidationErrors(Context(store.invoices, ExcludedId(paramsId), calendarValid)));
        old(items) != [] && found == [] && IsEditing(paramsId) ==> outcome == Updated
      ensures var found := old(ValidationErrors(Context(store.invoices, ExcludedId(paramsId), calendarValid)));
        var i := FindIndex(old(store.invoices), paramsId.GetOr([]));
        old(items) != [] && found == [] && IsEditing(paramsId) && i == -1 ==>
          store.invoices == old(store.invoices) && store.storage == old(store.storage)
      ensures var found := old(ValidationErrors(Context(store.invoices, ExcludedId(paramsId), calendarValid)));
        var i := FindIndex(old(store.invoices), paramsId.GetOr([]));
        old(items) != [] && found == [] && IsEditing(paramsId) && i >= 0 ==>
          store.invoices == old(store.invoices)[i := MergeInvoice(old(store.invoices)[i], PatchOf(old(Input())), itemIds, now)]
      ensures var found := old(ValidationErrors(Context(store.invoices, ExcludedId(paramsId), calendarValid)));
        var i := FindIndex(old(store.invoices), paramsId.GetOr([]));
        old(items) != [] && found == [] && (!IsEditing(paramsId) || i >= 0) ==> store.storage == Saved(store.invoices)
      ensures store.isLoading == old(store.isLoading)
    {
      var ctx := Context(store.invoices, ExcludedId(paramsId), calendarValid);
      var found := CollectErrors(ctx);
      if items == [] {
        return NoItems;
      }
      if found != [] {
        errors := found;
        return Invalid(found[0].1);
      }
      var input := Input();
      if IsEditing(paramsId) {
        store.UpdateInvoice(paramsId.value, PatchOf(input), itemIds, now);
        outcome := Updated;
      } else {
        var created := store.AddInvoice(input, itemIds, invoiceId, now);
        outcome := Created(created);
      }
    }
  }

  /** A save with no items reports only the missing items, whatever the header holds: the header's
      errors are not shown and nothing is stored. */
  method NoItemsWinsOverErrors(form: Form, store: Store, paramsId: Option<string>, calendarValid: string -> bool,
                               invoiceId: string, now: string) returns (outcome: SaveOutcome)
    requires form.items == []
    requires form.ValidationErrors(Context(store.invoices, ExcludedId(paramsId), calendarValid)) != []
    modifies form`errors, store
    ensures outcome == NoItems
    ensures form.errors == old(form.errors)
    ensures store.invoices == old(store.invoices) && store.storage == old(store.storage)
  {
    outcome := form.HandleSave(store, paramsId, calendarValid, [], invoiceId, now);
  }

  /** What an accepted header means for the fields themselves. */
  lemma AcceptedHeader(clientName: string, invoiceNumber: string, date: string, dueDate: string,
                       taxRate: real, discount: real, ctx: Context)
    requires HeaderAccepted(clientName, invoiceNumber, date, dueDate, taxRate, discount, ctx)
    ensures 0.0 <= taxRate <= 1.0 && 0.0 <= discount <= 1.0
    ensures !AllWhitespace(clientName) && !AllWhitespace(invoiceNumber)
    ensures IsDateShape(date) && (dueDate == [] || IsDateShape(dueDate))
  {
    assert FieldAccepts(ClientNameField(clientName), ctx);
    assert FieldAccepts(InvoiceNumberField(invoiceNumber), ctx);
    assert FieldAccepts(DateField(date), ctx);
    assert FieldAccepts(DueDateField(dueDate), ctx);
    assert FieldAccepts(TaxRateField(Finite(taxRate)), ctx);
    assert FieldAccepts(DiscountField(Finite(discount)), ctx);
  }

  /** The form saves only when every header field is accepted and every item is valid. */
  lemma NoErrorsMeansAccepted(clientName: string, invoiceNumber: string, date: string, dueDate: string,
                              items: seq<ItemInput>, taxRate: real, discount: real, ctx: Context)
    requires HeaderErrors(clientName, invoiceNumber, date, dueDate, taxRate, discount, ctx) + ItemErrors(items, ctx) == []
    ensures HeaderAccepted(clientName, invoiceNumber, date, dueDate, taxRate, discount, ctx)
    ensures forall i :: 0 <= i < |items| ==> ItemValid(items[i])
  {
    var h := HeaderErrors(clientName, invoiceNumber, date, dueDate, taxRate, discount, ctx);
    assert |h + ItemErrors(items, ctx)| == |h| + |ItemErrors(items, ctx)|;
    HeaderErrorsEmptyIffAccepted(clientName, invoiceNumber, date, dueDate, taxRate, discount, ctx);
    ItemErrorsEmptyIffValid(items, ctx);
  }



}
