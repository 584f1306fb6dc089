/**
 * The invoice entity types of src/types/invoice.ts: the six-valued status union,
 * line items, invoices, and the "invoice without id and createdAt" shape that
 * `addInvoice` receives.
 *
 * Numbers that the source keeps as JS numbers (amounts, prices, quantities, rates)
 * are `real`s; `id` and `createdAt` are integer milliseconds. The source keeps
 * `createdAt` as an ISO-8601 string and parses it with `new Date(..).getTime()`;
 * here it is already the parsed value.
 */
module InvoiceTypes {
  import opened Wrappers

  /** `InvoiceStatus`: a closed union of six string literals. */
  datatype InvoiceStatus = PAID | OVERDUE | DRAFT | SENT | VIEWED | PENDING

  /** The six statuses, in the order the union lists them. */
  const AllStatuses: seq<InvoiceStatus> := [PAID, OVERDUE, DRAFT, SENT, VIEWED, PENDING]

  /** The member of the union that a string literal is, if it is one. */
  function StatusOfLabel(text: string): Option<InvoiceStatus>
  {
    if text == "PAID" then Some(PAID)
    else if text == "OVERDUE" then Some(OVERDUE)
    else if text == "DRAFT" then Some(DRAFT)
    else if text == "SENT" then Some(SENT)
    else if text == "VIEWED" then Some(VIEWED)
    else if text == "PENDING" then Some(PENDING)
    else None
  }

  /** The string literal that stands for each status in the union; it names that status and no other. */
  function StatusLabel(s: InvoiceStatus): (r: string)
    ensures StatusOfLabel(r) == Some(s)
  {
    match s
    case PAID => "PAID"
    case OVERDUE => "OVERDUE"
    case DRAFT => "DRAFT"
    case SENT => "SENT"
    case VIEWED => "VIEWED"
    case PENDING => "PENDING"
  }

  /** The enumeration is closed and has exactly six distinct members with six distinct labels. */
  lemma StatusEnumerationClosed()
    ensures |AllStatuses| == 6
    ensures forall s: InvoiceStatus :: s in AllStatuses
    ensures forall i, j :: 0 <= i < j < |AllStatuses| ==> AllStatuses[i] != AllStatuses[j]
    ensures forall s, t :: s != t ==> StatusLabel(s) != StatusLabel(t)
  {
    forall s: InvoiceStatus ensures s in AllStatuses {
      match s
      case PAID => assert AllStatuses[0] == s;
      case OVERDUE => assert AllStatuses[1] == s;
      case DRAFT => assert AllStatuses[2] == s;
      case SENT => assert AllStatuses[3] == s;
      case VIEWED => assert AllStatuses[4] == s;
      case PENDING => assert AllStatuses[5] == s;
    }
    forall s, t | s != t ensures StatusLabel(s) != StatusLabel(t) {
      // the labels differ in their first or second character
      assert StatusLabel(s)[0] != StatusLabel(t)[0] || StatusLabel(s)[1] != StatusLabel(t)[1];
    }
  }

  /** `InvoiceItem`: `details` is the one optional field. */
  datatype InvoiceItem = InvoiceItem(
    description: string,
    quantity: real,
    unitPrice: real,
    total: real,
    details: Option<string>)

  /** `Invoice`: every field is required except `discountRate`; `status` is exactly one status. */
  datatype Invoice = Invoice(
    id: int,
    number: string,
    reference: string,
    dueDate: string,
    amount: real,
    status: InvoiceStatus,
    clientName: string,
    clientPhone: string,
    clientEmail: string,
    issueDate: string,
    currency: string,
    createdAt: int,
    items: seq<InvoiceItem>,
    discountRate: Option<real>)

  /** `Omit<Invoice, 'id' | 'createdAt'>`: what `addInvoice` is given. */
  datatype InvoiceDraft = InvoiceDraft(
    number: string,
    reference: string,
    dueDate: string,
    amount: real,
    status: InvoiceStatus,
    clientName: string,
    clientPhone: string,
    clientEmail: string,
    issueDate: string,
    currency: string,
    items: seq<InvoiceItem>,
    discountRate: Option<real>)

  /** `{ ...draft, id, createdAt }`: the draft's fields plus the two synthesized ones. */
  function WithIdentity(draft: InvoiceDraft, id: int, createdAt: int): (inv: Invoice)
    ensures inv.id == id && inv.createdAt == createdAt
  {
    Invoice(id, draft.number, draft.reference, draft.dueDate, draft.amount, draft.status,
            draft.clientName, draft.clientPhone, draft.clientEmail, draft.issueDate,
            draft.currency, createdAt, draft.items, draft.discountRate)
  }

  /** The fields of an invoice other than `id` and `createdAt`. */
  function WithoutIdentity(inv: Invoice): InvoiceDraft
  {
    InvoiceDraft(inv.number, inv.reference, inv.dueDate, inv.amount, inv.status,
                 inv.clientName, inv.clientPhone, inv.clientEmail, inv.issueDate,
                 inv.currency, inv.items, inv.discountRate)
  }

  /** Adding an identity keeps every field of the draft. */
  lemma DraftRoundTrip(draft: InvoiceDraft, id: int, createdAt: int)
    ensures WithoutIdentity(WithIdentity(draft, id, createdAt)) == draft
  {
  }

  /** An invoice is exactly its draft fields plus its own `id` and `createdAt`. */
  lemma IdentityRoundTrip(inv: Invoice)
    ensures WithIdentity(WithoutIdentity(inv), inv.id, inv.createdAt) == inv
  {
  }
}
