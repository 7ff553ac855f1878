/** The records of the invoice domain (lib/types.ts). */
module Types {
  import opened Wrappers

  /** A JavaScript `Date`, as milliseconds since the epoch. */
  type Timestamp = int

  /** No transition rule is attached: any status may be set at any time. */
  datatype InvoiceStatus = Draft | Sent | Paid

  /** The string value the status has in the source ("draft", "sent", "paid"). */
  function StatusName(s: InvoiceStatus): string {
    match s
    case Draft => "draft"
    case Sent => "sent"
    case Paid => "paid"
  }

  datatype Client = Client(
    id: string,
    name: string,
    email: string,
    company: string,
    address: string,
    phone: Option<string>,
    createdAt: Timestamp)

  datatype LineItem = LineItem(id: string, description: string, quantity: int, unitPrice: real)

  /** `client` is never stored on purpose: it is filled in by the read-time join. */
  datatype Invoice = Invoice(
    id: string,
    invoiceNumber: string,
    clientId: string,
    client: Option<Client>,
    lineItems: seq<LineItem>,
    subtotal: real,
    taxRate: real,
    taxAmount: real,
    discountRate: real,
    discountAmount: real,
    total: real,
    status: InvoiceStatus,
    issueDate: Timestamp,
    dueDate: Timestamp,
    notes: Option<string>,
    createdAt: Timestamp,
    updatedAt: Timestamp)

  datatype User = User(username: string, isAuthenticated: bool)
}
