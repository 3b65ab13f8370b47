/** The invoice records of types/invoice.ts and the loosely-typed data the AI parser returns
    (services/aiService.ts). Money and quantities are exact reals; optional fields are `Option`s. */
module InvoiceTypes {
  import opened Wrappers

  /** One line of an invoice; `subtotal` is derived as quantity times price. */
  datatype InvoiceItem = InvoiceItem(
    id: string, description: string, quantity: real, price: real, subtotal: real)

  datatype Invoice = Invoice(
    id: string,
    clientId: Option<string>,
    clientName: string,
    invoiceNumber: string,
    date: string,
    dueDate: Option<string>,
    items: seq<InvoiceItem>,
    subtotal: real,
    taxRate: real,
    taxAmount: real,
    discount: real,
    total: real,
    notes: Option<string>,
    createdAt: string,
    updatedAt: string)

  /** An item as the form edits it: an InvoiceItem without `id` and `subtotal`. */
  datatype ItemInput = ItemInput(description: string, quantity: real, price: real)

  /** The input to invoice creation. */
  datatype CreateInvoiceInput = CreateInvoiceInput(
    clientName: string,
    invoiceNumber: string,
    date: string,
    dueDate: Option<string>,
    items: seq<ItemInput>,
    taxRate: real,
    discount: real,
    notes: Option<string>)

  /** `Partial<CreateInvoiceInput>`: every field may be absent. */
  datatype InvoicePatch = InvoicePatch(
    clientName: Option<string>,
    invoiceNumber: Option<string>,
    date: Option<string>,
    dueDate: Option<string>,
    items: Option<seq<ItemInput>>,
    taxRate: Option<real>,
    discount: Option<real>,
    notes: Option<string>)

  /** An item as the language model names it. */
  datatype ParsedItem = ParsedItem(name: string, quantity: real, price: real)

  /** `ParsedInvoiceData`: the all-optional bag of fields extracted from free text. */
  datatype ParsedInvoiceData = ParsedInvoiceData(
    clientName: Option<string>,
    invoiceNumber: Option<string>,
    date: Option<string>,
    dueDate: Option<string>,
    items: Option<seq<ParsedItem>>,
    taxRate: Option<real>,
    discount: Option<real>,
    notes: Option<string>)

  /** What `setFullInvoice` hands to the creation form. */
  datatype FormData = FormData(
    clientName: string,
    invoiceNumber: Option<string>,
    date: Option<string>,
    dueDate: Option<string>,
    items: seq<ItemInput>,
    taxRate: Option<real>,
    discount: Option<real>,
    notes: Option<string>)
}
