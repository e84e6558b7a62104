/** The five tables of the store: row shapes, column defaults and the two
    uniqueness constraints. Primary keys (UUIDs in the database) are natural
    numbers handed out by the store's fresh-id counter; `created_at` readings
    of the wall clock are timestamps supplied by the caller. */
module Models {
  import opened Outcomes

  type Id = nat

  /** A date-time as a count of microseconds since the epoch. */
  type Timestamp = int

  datatype InvoiceStatus = Open | Matched {
    /** The text stored in the `status` column. */
    function Name(): string {
      match this
      case Open => "open"
      case Matched => "matched"
    }
  }

  datatype MatchStatus = Proposed | Confirmed {
    function Name(): string {
      match this
      case Proposed => "proposed"
      case Confirmed => "confirmed"
    }
  }

  datatype Tenant = Tenant(id: Id, name: string, createdAt: Timestamp)

  datatype Invoice = Invoice(
    id: Id,
    tenantId: Id,
    amount: real,
    currency: string,
    invoiceDate: Option<Timestamp>,
    description: Option<string>,
    status: InvoiceStatus,
    createdAt: Timestamp)

  datatype BankTransaction = BankTransaction(
    id: Id,
    tenantId: Id,
    externalId: Option<string>,
    postedAt: Option<Timestamp>,
    amount: real,
    currency: string,
    description: Option<string>,
    createdAt: Timestamp)

  datatype Match = Match(
    id: Id,
    tenantId: Id,
    invoiceId: Id,
    bankTransactionId: Id,
    score: int,
    status: MatchStatus,
    createdAt: Timestamp)

  /** The caller-supplied fields of an invoice. */
  datatype InvoiceInput = InvoiceInput(
    amount: real,
    currency: string,
    description: Option<string>,
    invoiceDate: Option<Timestamp>)

  /** One element of an import batch. */
  datatype TransactionInput = TransactionInput(
    externalId: Option<string>,
    amount: real,
    currency: string,
    description: Option<string>,
    postedAt: Option<Timestamp>)

  /** The serialised form of a bank transaction that an import returns and
      that its idempotency record keeps as the stored response. */
  datatype TransactionView = TransactionView(
    id: Id,
    tenantId: Id,
    externalId: Option<string>,
    amount: real,
    currency: string,
    description: Option<string>,
    postedAt: Option<Timestamp>,
    createdAt: Option<Timestamp>)

  /** The fingerprint of a batch. The store keeps a SHA-256 digest of the
      batch's canonical JSON; digests are taken to be collision-free, so the
      fingerprint is the batch itself. */
  type PayloadHash = seq<TransactionInput>

  function Fingerprint(batch: seq<TransactionInput>): PayloadHash {
    batch
  }

  datatype IdempotencyRecord = IdempotencyRecord(
    id: Id,
    tenantId: Id,
    key: string,
    payloadHash: PayloadHash,
    response: seq<TransactionView>)

  /** A new invoice row: the caller's fields, the `open` default status. */
  function NewInvoice(id: Id, tenantId: Id, data: InvoiceInput, now: Timestamp): (inv: Invoice)
    ensures inv.status == Open && inv.status.Name() == "open"
    ensures inv.id == id && inv.tenantId == tenantId && inv.createdAt == now
    ensures inv.amount == data.amount && inv.currency == data.currency
    ensures inv.description == data.description && inv.invoiceDate == data.invoiceDate
  {
    Invoice(id, tenantId, data.amount, data.currency, data.invoiceDate, data.description, Open, now)
  }

  /** A new bank transaction row built from one batch element. */
  function NewTransaction(id: Id, tenantId: Id, data: TransactionInput, now: Timestamp): (tx: BankTransaction)
    ensures tx.id == id && tx.tenantId == tenantId && tx.createdAt == now
    ensures tx.externalId == data.externalId && tx.postedAt == data.postedAt
    ensures tx.amount == data.amount && tx.currency == data.currency
    ensures tx.description == data.description
  {
    BankTransaction(id, tenantId, data.externalId, data.postedAt, data.amount, data.currency, data.description, now)
  }

  /** A new match row: the `proposed` default status. */
  function NewMatch(id: Id, tenantId: Id, invoiceId: Id, txId: Id, score: int, now: Timestamp): (m: Match)
    ensures m.status == Proposed && m.status.Name() == "proposed"
    ensures m.id == id && m.tenantId == tenantId && m.createdAt == now
    ensures m.invoiceId == invoiceId && m.bankTransactionId == txId && m.score == score
  {
    Match(id, tenantId, invoiceId, txId, score, Proposed, now)
  }

  /** Constraint `uq_tenant_external`: no two transactions of one tenant share
      an external id. Rows without an external id (SQL NULL) are unconstrained. */
  predicate ExternalIdsUnique(txs: seq<BankTransaction>) {
    forall i, j ::
      0 <= i < j < |txs| && txs[i].tenantId == txs[j].tenantId && txs[i].externalId.Some?
      ==> txs[i].externalId != txs[j].externalId
  }

  /** Constraint `uq_tenant_key`: no two idempotency records of one tenant
      share a key. */
  predicate KeysUnique(recs: seq<IdempotencyRecord>) {
    forall i, j ::
      0 <= i < j < |recs| && recs[i].tenantId == recs[j].tenantId ==> recs[i].key != recs[j].key
  }
}
