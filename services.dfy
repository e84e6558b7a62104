/** The tenant-partitioned store and the entry points of the service layer.
    Each entry point is one unit of work: it commits on success and rolls
    back on any error, so an `Err` result leaves every table as it was. */
module Services {
  import opened Outcomes
  import opened Seqs
  import opened Strings
  import opened Models
  import opened Reconciliation
  import opened ServicesSpec

  // ---------------------------------------------------------------------
  // Table invariants: primary keys are below the fresh-id counter and
  // distinct, every tenant-scoped row names an existing tenant, and the two
  // uniqueness constraints hold.

  ghost predicate TenantsValid(ts: seq<Tenant>, bound: nat) {
    && (forall i :: 0 <= i < |ts| ==> ts[i].id < bound)
    && (forall i, j :: 0 <= i < j < |ts| ==> ts[i].id != ts[j].id)
  }

  ghost predicate InvoicesValid(invs: seq<Invoice>, ts: seq<Tenant>, bound: nat) {
    && (forall i :: 0 <= i < |invs| ==> invs[i].id < bound && HasTenant(ts, invs[i].tenantId))
    && (forall i, j :: 0 <= i < j < |invs| ==> invs[i].id != invs[j].id)
  }

  ghost predicate TransactionsValid(txs: seq<BankTransaction>, ts: seq<Tenant>, bound: nat) {
    && (forall i :: 0 <= i < |txs| ==> txs[i].id < bound && HasTenant(ts, txs[i].tenantId))
    && (forall i, j :: 0 <= i < j < |txs| ==> txs[i].id != txs[j].id)
    && ExternalIdsUnique(txs)
  }

  /** The transaction a match points to exists and belongs to the match's tenant. */
  ghost predicate HasTransaction(txs: seq<BankTransaction>, tenantId: Id, txId: Id) {
    exists j :: 0 <= j < |txs| && txs[j].id == txId && txs[j].tenantId == tenantId
  }

  ghost predicate MatchesValid(ms: seq<Match>, ts: seq<Tenant>, txs: seq<BankTransaction>, bound: nat) {
    && (forall i :: 0 <= i < |ms| ==>
          ms[i].id < bound && HasTenant(ts, ms[i].tenantId) && 0 < ms[i].score <= 80
          && HasTransaction(txs, ms[i].tenantId, ms[i].bankTransactionId))
    && (forall i, j :: 0 <= i < j < |ms| ==> ms[i].id != ms[j].id)
  }

  /** An idempotency record keeps one view per element of its batch, all of
      them of its own tenant. */
  ghost predicate RecordValid(rec: IdempotencyRecord) {
    && |rec.response| == |rec.payloadHash| > 0
    && forall v :: v in rec.response ==> v.tenantId == rec.tenantId
  }

  ghost predicate KeysValid(recs: seq<IdempotencyRecord>, ts: seq<Tenant>, bound: nat) {
    && (forall i :: 0 <= i < |recs| ==> recs[i].id < bound && HasTenant(ts, recs[i].tenantId) && RecordValid(recs[i]))
    && (forall i, j :: 0 <= i < j < |recs| ==> recs[i].id != recs[j].id)
    && KeysUnique(recs)
  }

  lemma HasTenantGrows(ts: seq<Tenant>, more: seq<Tenant>, id: Id)
    requires HasTenant(ts, id)
    ensures HasTenant(ts + more, id)
  {
    var k :| 0 <= k < |ts| && ts[k].id == id;
    assert (ts + more)[k] == ts[k];
  }

  lemma HasTransactionGrows(txs: seq<BankTransaction>, more: seq<BankTransaction>, tenantId: Id, txId: Id)
    requires HasTransaction(txs, tenantId, txId)
    ensures HasTransaction(txs + more, tenantId, txId)
  {
    var j :| 0 <= j < |txs| && txs[j].id == txId && txs[j].tenantId == tenantId;
    assert (txs + more)[j] == txs[j];
  }

  /** Everything the store holds. */
  datatype Tables = Tables(
    tenants: seq<Tenant>,
    invoices: seq<Invoice>,
    transactions: seq<BankTransaction>,
    matches: seq<Match>,
    idempotencyKeys: seq<IdempotencyRecord>,
    nextId: nat)

  ghost predicate TablesValid(t: Tables) {
    && TenantsValid(t.tenants, t.nextId)
    && InvoicesValid(t.invoices, t.tenants, t.nextId)
    && TransactionsValid(t.transactions, t.tenants, t.nextId)
    && MatchesValid(t.matches, t.tenants, t.transactions, t.nextId)
    && KeysValid(t.idempotencyKeys, t.tenants, t.nextId)
  }

  /** The rows of one tenant in every table. */
  datatype Partition = Partition(
    invoices: seq<Invoice>,
    transactions: seq<BankTransaction>,
    matches: seq<Match>,
    records: seq<IdempotencyRecord>)

  ghost function PartitionOf(t: Tables, tenantId: Id): Partition {
    Partition(
      Filter(t.invoices, InvoiceOwnedBy(tenantId)),
      Filter(t.transactions, TransactionOwnedBy(tenantId)),
      Filter(t.matches, MatchOwnedBy(tenantId)),
      Filter(t.idempotencyKeys, RecordOwnedBy(tenantId)))
  }

  /** Tenant isolation: going from `before` to `after` changed no row of any
      tenant other than `tenantId`. */
  ghost predicate Isolated(before: Tables, after: Tables, tenantId: Id) {
    forall other :: other != tenantId ==> PartitionOf(after, other) == PartitionOf(before, other)
  }

  // ---------------------------------------------------------------------
  // The tables after each successful unit of work.

  /** The first import of `batch` under `key`: its rows, then its record. */
  function AfterImport(t: Tables, tenantId: Id, batch: seq<TransactionInput>, key: string, now: Timestamp): Tables
  {
    var rows := NewRows(batch, tenantId, t.nextId, now);
    t.(transactions := t.transactions + rows,
       idempotencyKeys := t.idempotencyKeys
         + [IdempotencyRecord(t.nextId + |batch|, tenantId, key, Fingerprint(batch), Views(rows))],
       nextId := t.nextId + |batch| + 1)
  }

  /** What a fresh import leaves: the old rows, then the batch's rows owned by
      the tenant under consecutive ids, then one record under (tenant, key)
      holding the batch's fingerprint and one view per row. */
  lemma AfterImportShape(t: Tables, tenantId: Id, batch: seq<TransactionInput>, key: string, now: Timestamp)
    ensures
      var r := AfterImport(t, tenantId, batch, key, now);
      var n, m := |t.transactions|, |t.idempotencyKeys|;
      && r.tenants == t.tenants && r.invoices == t.invoices && r.matches == t.matches
      && |r.transactions| == n + |batch| && r.transactions[..n] == t.transactions
      && r.transactions[n..] == NewRows(batch, tenantId, t.nextId, now)
      && (forall i :: n <= i < |r.transactions| ==>
            r.transactions[i].tenantId == tenantId && r.transactions[i].id == t.nextId + (i - n))
      && |r.idempotencyKeys| == m + 1 && r.idempotencyKeys[..m] == t.idempotencyKeys
      && r.idempotencyKeys[m].tenantId == tenantId && r.idempotencyKeys[m].key == key
      && r.idempotencyKeys[m].payloadHash == Fingerprint(batch)
      && r.idempotencyKeys[m].response == Views(r.transactions[n..])
      && r.nextId == t.nextId + |batch| + 1
  {
    var r := AfterImport(t, tenantId, batch, key, now);
    assert r.transactions[|t.transactions|..] == NewRows(batch, tenantId, t.nextId, now);
  }

  /** The matches one run of `reconcile` proposes for a tenant. */
  function SweepOf(t: Tables, tenantId: Id, now: Timestamp): seq<Match> {
    ProposedMatches(
      Candidates(Filter(t.invoices, InvoiceOwnedBy(tenantId)), Filter(t.transactions, TransactionOwnedBy(tenantId))),
      tenantId, t.nextId, now)
  }

  /** Match `k` confirmed and invoice `j` matched. */
  function AfterConfirm(t: Tables, k: nat, j: nat): (r: Tables)
    requires k < |t.matches| && j < |t.invoices|
    ensures r.tenants == t.tenants && r.transactions == t.transactions
    ensures r.idempotencyKeys == t.idempotencyKeys && r.nextId == t.nextId
    ensures |r.matches| == |t.matches| && |r.invoices| == |t.invoices|
    ensures r.matches[k] == t.matches[k].(status := Confirmed) && r.matches[k].status.Name() == "confirmed"
    ensures r.invoices[j] == t.invoices[j].(status := Matched) && r.invoices[j].status.Name() == "matched"
    ensures forall i :: 0 <= i < |t.matches| && i != k ==> r.matches[i] == t.matches[i]
    ensures forall i :: 0 <= i < |t.invoices| && i != j ==> r.invoices[i] == t.invoices[i]
  {
    t.(matches := t.matches[k := t.matches[k].(status := Confirmed)],
       invoices := t.invoices[j := t.invoices[j].(status := Matched)])
  }

  /** What a unit of work returns, together with the tables it commits. */
  datatype Step<+T> = Step(result: Result<T>, tables: Tables)

  /** `delete_invoice` on the tables. */
  function DeleteStep(t: Tables, tenantId: Id, invoiceId: Id): (s: Step<()>)
    ensures s.result.Err? ==> s.tables == t
    ensures s.result.Ok? <==>
      HasTenant(t.tenants, tenantId) && exists k :: 0 <= k < |t.invoices| && InvoiceOf(tenantId, invoiceId)(t.invoices[k])
    ensures !HasTenant(t.tenants, tenantId) ==> s.result == Err(NotFound("Tenant not found"))
    ensures HasTenant(t.tenants, tenantId) && s.result.Err? ==> s.result == Err(NotFound("Invoice not found for tenant"))
    ensures s.result.Ok? ==>
      exists k :: 0 <= k < |t.invoices| && InvoiceOf(tenantId, invoiceId)(t.invoices[k])
                  && s.tables == t.(invoices := t.invoices[..k] + t.invoices[k + 1..])
    ensures s.result.Ok? ==>
      && |s.tables.invoices| + 1 == |t.invoices|
      && multiset(s.tables.invoices) <= multiset(t.invoices)
  {
    if GetTenant(t.tenants, tenantId).Err? then Step(Err(NotFound("Tenant not found")), t)
    else match FirstIndex(t.invoices, InvoiceOf(tenantId, invoiceId))
      case None => Step(Err(NotFound("Invoice not found for tenant")), t)
      case Some(k) =>
        assert t.invoices == t.invoices[..k] + [t.invoices[k]] + t.invoices[k + 1..];
        Step(Ok(()), t.(invoices := t.invoices[..k] + t.invoices[k + 1..]))
  }

  /** `import_transactions` on the tables: validation in the order the code
      checks it, then replay or conflict under an existing (tenant, key)
      record, then the all-or-nothing insert. */
  function ImportStep(t: Tables, tenantId: Id, batch: seq<TransactionInput>, key: string, now: Timestamp): (s: Step<seq<TransactionView>>)
    ensures s.result.Err? ==> s.tables == t
    ensures s.tables.tenants == t.tenants && s.tables.invoices == t.invoices && s.tables.matches == t.matches
    ensures s.result.Ok? ==> HasTenant(t.tenants, tenantId) && !BlankKey(key) && batch != []
    // validation, in the order the code checks it
    ensures !HasTenant(t.tenants, tenantId) ==> s.result == Err(NotFound("Tenant not found"))
    ensures HasTenant(t.tenants, tenantId) && BlankKey(key) ==>
      s.result == Err(Validation("Idempotency key is required"))
    ensures HasTenant(t.tenants, tenantId) && !BlankKey(key) && batch == [] ==>
      s.result == Err(Validation("At least one transaction is required"))
    // a key already used by the tenant: replay or conflict, nothing written
    ensures HasTenant(t.tenants, tenantId) && !BlankKey(key) && batch != []
            && FirstIndex(t.idempotencyKeys, RecordOf(tenantId, key)).Some? ==>
      var rec := t.idempotencyKeys[FirstIndex(t.idempotencyKeys, RecordOf(tenantId, key)).value];
      && s.tables == t
      && (rec.payloadHash == Fingerprint(batch) ==> s.result == Ok(rec.response))
      && (rec.payloadHash != Fingerprint(batch) ==> s.result == Err(Conflict("Idempotency conflict")))
    // a fresh key: the batch goes in whole, or not at all when it breaks uq_tenant_external
    ensures HasTenant(t.tenants, tenantId) && !BlankKey(key) && batch != []
            && FirstIndex(t.idempotencyKeys, RecordOf(tenantId, key)).None? ==>
      var rows := NewRows(batch, tenantId, t.nextId, now);
      && (!ExternalIdsUnique(t.transactions + rows) ==>
            s.result == Err(Conflict("Duplicate bank transaction for tenant/external_id")))
      && (ExternalIdsUnique(t.transactions + rows) ==>
            s == Step(Ok(Views(rows)), AfterImport(t, tenantId, batch, key, now)))
  {
    if GetTenant(t.tenants, tenantId).Err? then Step(Err(NotFound("Tenant not found")), t)
    else if BlankKey(key) then Step(Err(Validation("Idempotency key is required")), t)
    else if batch == [] then Step(Err(Validation("At least one transaction is required")), t)
    else match FirstIndex(t.idempotencyKeys, RecordOf(tenantId, key))
      case Some(k) =>
        var rec := t.idempotencyKeys[k];
        if rec.payloadHash != Fingerprint(batch) then Step(Err(Conflict("Idempotency conflict")), t)
        else Step(Ok(rec.response), t)
      case None =>
        var rows := NewRows(batch, tenantId, t.nextId, now);
        if !ExternalIdsUnique(t.transactions + rows) then
          Step(Err(Conflict("Duplicate bank transaction for tenant/external_id")), t)
        else Step(Ok(Views(rows)), AfterImport(t, tenantId, batch, key, now))
  }

  /** `reconcile` on the tables. */
  function ReconcileStep(t: Tables, tenantId: Id, now: Timestamp): (s: Step<seq<Match>>)
    ensures s.result.Err? ==> s.tables == t
    ensures s.result.Ok? <==>
      && HasTenant(t.tenants, tenantId)
      && Filter(t.invoices, InvoiceOwnedBy(tenantId)) != []
      && Filter(t.transactions, TransactionOwnedBy(tenantId)) != []
    ensures !HasTenant(t.tenants, tenantId) ==> s.result == Err(NotFound("Tenant not found"))
    ensures HasTenant(t.tenants, tenantId) && Filter(t.invoices, InvoiceOwnedBy(tenantId)) == [] ==>
      s.result == Err(NotFound("No invoices found for tenant"))
    ensures HasTenant(t.tenants, tenantId) && Filter(t.invoices, InvoiceOwnedBy(tenantId)) != []
            && Filter(t.transactions, TransactionOwnedBy(tenantId)) == [] ==>
      s.result == Err(NotFound("No bank transactions found for tenant"))
    ensures s.result.Ok? ==> s.result.value == SweepOf(t, tenantId, now)
    ensures s.result.Ok? ==>
      && s.tables.matches == t.matches + s.result.value
      && s.tables == t.(matches := s.tables.matches, nextId := t.nextId + |s.result.value|)
  {
    if GetTenant(t.tenants, tenantId).Err? then Step(Err(NotFound("Tenant not found")), t)
    else if Filter(t.invoices, InvoiceOwnedBy(tenantId)) == [] then Step(Err(NotFound("No invoices found for tenant")), t)
    else if Filter(t.transactions, TransactionOwnedBy(tenantId)) == [] then
      Step(Err(NotFound("No bank transactions found for tenant")), t)
    else
      var made := SweepOf(t, tenantId, now);
      Step(Ok(made), t.(matches := t.matches + made, nextId := t.nextId + |made|))
  }

  /** `confirm_match` on the tables. */
  function ConfirmStep(t: Tables, tenantId: Id, matchId: Id): (s: Step<Match>)
    ensures s.result.Err? ==> s.tables == t
    ensures s.result.Ok? ==>
      && s.result.value.id == matchId && s.result.value.tenantId == tenantId
      && s.result.value.status == Confirmed
      && s.result.value in s.tables.matches
      && |s.tables.matches| == |t.matches| && |s.tables.invoices| == |t.invoices|
    // on success: that match confirmed, its invoice matched, every other row as it was
    ensures s.result.Ok? ==>
      exists k, j :: 0 <= k < |t.matches| && 0 <= j < |t.invoices|
        && MatchOf(tenantId, matchId)(t.matches[k]) && t.matches[k].status == Proposed
        && InvoiceOf(tenantId, t.matches[k].invoiceId)(t.invoices[j])
        && s.result.value == t.matches[k].(status := Confirmed)
        && s.tables == t.(matches := t.matches[k := s.result.value],
                          invoices := t.invoices[j := t.invoices[j].(status := Matched)])
    // the failures, in the order the code checks them
    ensures !HasTenant(t.tenants, tenantId) ==> s.result == Err(NotFound("Tenant not found"))
    ensures HasTenant(t.tenants, tenantId) && FirstIndex(t.matches, MatchOf(tenantId, matchId)).None? ==>
      s.result == Err(NotFound("Match not found for tenant"))
    ensures HasTenant(t.tenants, tenantId) && FirstIndex(t.matches, MatchOf(tenantId, matchId)).Some? ==>
      var m := t.matches[FirstIndex(t.matches, MatchOf(tenantId, matchId)).value];
      && (m.status == Confirmed ==> s.result == Err(Conflict("Match is already confirmed")))
      && (m.status == Proposed && FirstIndex(t.invoices, InvoiceOf(tenantId, m.invoiceId)).None? ==>
            s.result == Err(NotFound("Invoice for match not found")))
      && (m.status == Proposed && FirstIndex(t.invoices, InvoiceOf(tenantId, m.invoiceId)).Some? ==>
            s.result == Ok(m.(status := Confirmed)))
  {
    if GetTenant(t.tenants, tenantId).Err? then Step(Err(NotFound("Tenant not found")), t)
    else match FirstIndex(t.matches, MatchOf(tenantId, matchId))
      case None => Step(Err(NotFound("Match not found for tenant")), t)
      case Some(k) =>
        var m := t.matches[k];
        if m.status == Confirmed then Step(Err(Conflict("Match is already confirmed")), t)
        else match FirstIndex(t.invoices, InvoiceOf(tenantId, m.invoiceId))
          case None => Step(Err(NotFound("Invoice for match not found")), t)
          case Some(j) =>
            var after := AfterConfirm(t, k, j);
            assert after.matches[k] == m.(status := Confirmed);
            assert 0 <= k < |t.matches| && 0 <= j < |t.invoices|
              && MatchOf(tenantId, matchId)(t.matches[k]) && t.matches[k].status == Proposed
              && InvoiceOf(tenantId, t.matches[k].invoiceId)(t.invoices[j])
              && m.(status := Confirmed) == t.matches[k].(status := Confirmed)
              && after == t.(matches := t.matches[k := m.(status := Confirmed)],
                             invoices := t.invoices[j := t.invoices[j].(status := Matched)]);
            Step(Ok(m.(status := Confirmed)), after)
  }

  class Store {
    var tenants: seq<Tenant>
    var invoices: seq<Invoice>
    var transactions: seq<BankTransaction>
    var matches: seq<Match>
    var idempotencyKeys: seq<IdempotencyRecord>
    /** The fresh-id counter that stands for UUID generation. */
    var nextId: nat

    ghost function State(): Tables
      reads this
    {
      Tables(tenants, invoices, transactions, matches, idempotencyKeys, nextId)
    }

    ghost predicate Valid()
      reads this
    {
      TablesValid(State())
    }

    /** What tenant `tenantId` owns. */
    ghost function View(tenantId: Id): Partition
      reads this
    {
      PartitionOf(State(), tenantId)
    }

    constructor ()
      ensures Valid()
      ensures State() == Tables([], [], [], [], [], 0)
    {
      tenants, invoices, transactions, matches, idempotencyKeys := [], [], [], [], [];
      nextId := 0;
    }

    /** `create_tenant`. A new tenant owns nothing yet. */
    method CreateTenant(name: string, now: Timestamp) returns (t: Tenant)
      requires Valid()
      modifies this
      ensures Valid()
      ensures t == Tenant(old(nextId), name, now)
      ensures State() == old(State()).(tenants := old(tenants) + [t], nextId := old(nextId) + 1)
      ensures View(t.id) == Partition([], [], [], [])
      ensures Isolated(old(State()), State(), t.id)
    {
      t := Tenant(nextId, name, now);
      AddTenantKeepsValid(State(), t);
      tenants := tenants + [t];
      nextId := nextId + 1;
    }

    /** `create_invoice`: a new `open` invoice for an existing tenant. */
    method CreateInvoice(tenantId: Id, data: InvoiceInput, now: Timestamp) returns (r: Result<Invoice>)
      requires Valid()
      modifies this
      ensures Valid()
      ensures GetTenant(old(tenants), tenantId).Err? ==> r == Err(NotFound("Tenant not found")) && State() == old(State())
      ensures GetTenant(old(tenants), tenantId).Ok? ==>
        && r == Ok(NewInvoice(old(nextId), tenantId, data, now))
        && State() == old(State()).(invoices := old(invoices) + [r.value], nextId := old(nextId) + 1)
      ensures Isolated(old(State()), State(), tenantId)
    {
      var tenant := GetTenant(tenants, tenantId);
      if tenant.Err? {
        return Err(tenant.error);
      }
      var inv := NewInvoice(nextId, tenantId, data, now);
      AddInvoiceKeepsValid(State(), inv);
      invoices := invoices + [inv];
      nextId := nextId + 1;
      r := Ok(inv);
    }

    /** `list_invoices`: reads only. */
    method ListInvoices(tenantId: Id, filters: InvoiceFilters, skip: nat, limit: nat) returns (r: Result<seq<Invoice>>)
      ensures GetTenant(tenants, tenantId).Err? ==> r == Err(NotFound("Tenant not found"))
      ensures GetTenant(tenants, tenantId).Ok? ==> r == Ok(InvoiceQuery(invoices, tenantId, filters, skip, limit))
    {
      var tenant := GetTenant(tenants, tenantId);
      if tenant.Err? {
        return Err(tenant.error);
      }
      r := Ok(InvoiceQuery(invoices, tenantId, filters, skip, limit));
    }

    /** `delete_invoice`: removes exactly the tenant's invoice with that id. */
    method DeleteInvoice(tenantId: Id, invoiceId: Id) returns (r: Result<()>)
      requires Valid()
      modifies this
      ensures Valid()
      ensures Step(r, State()) == DeleteStep(old(State()), tenantId, invoiceId)
      ensures Isolated(old(State()), State(), tenantId)
    {
      var tenant := GetTenant(tenants, tenantId);
      if tenant.Err? {
        return Err(tenant.error);
      }
      var found := FirstIndex(invoices, InvoiceOf(tenantId, invoiceId));
      if found.None? {
        return Err(NotFound("Invoice not found for tenant"));
      }
      var k := found.value;
      DeleteKeepsValid(State(), tenantId, invoiceId);
      invoices := invoices[..k] + invoices[k + 1..];
      r := Ok(());
    }

    /** `import_transactions`: validation, then replay or conflict under an
        existing (tenant, key) record, then an all-or-nothing insert of the
        batch together with its idempotency record. */
    method ImportTransactions(tenantId: Id, txs: seq<TransactionInput>, key: string, now: Timestamp)
      returns (r: Result<seq<TransactionView>>)
      requires Valid()
      modifies this
      ensures Valid()
      ensures Step(r, State()) == ImportStep(old(State()), tenantId, txs, key, now)
      ensures Isolated(old(State()), State(), tenantId)
    {
      var tenant := GetTenant(tenants, tenantId);
      if tenant.Err? {
        return Err(tenant.error);
      }
      ImportKeepsValid(State(), tenantId, txs, key, now);
      if key == [] || Strip(key) == [] {
        return Err(Validation("Idempotency key is required"));
      }
      if txs == [] {
        return Err(Validation("At least one transaction is required"));
      }
      var existing := FirstIndex(idempotencyKeys, RecordOf(tenantId, key));
      if existing.Some? {
        var rec := idempotencyKeys[existing.value];
        if rec.payloadHash != Fingerprint(txs) {
          return Err(Conflict("Idempotency conflict"));
        }
        return Ok(rec.response);
      }
      r := InsertBatch(tenantId, txs, key, now);
    }

    /** The first use of a key: stage one row per batch element, flush them
        against `uq_tenant_external` (rolling back on a violation), then store
        the idempotency record with the serialised rows as its response. */
    method InsertBatch(tenantId: Id, txs: seq<TransactionInput>, key: string, now: Timestamp)
      returns (r: Result<seq<TransactionView>>)
      modifies this
      ensures !ExternalIdsUnique(old(transactions) + NewRows(txs, tenantId, old(nextId), now)) ==>
        r == Err(Conflict("Duplicate bank transaction for tenant/external_id")) && State() == old(State())
      ensures ExternalIdsUnique(old(transactions) + NewRows(txs, tenantId, old(nextId), now)) ==>
        r == Ok(Views(NewRows(txs, tenantId, old(nextId), now))) && State() == AfterImport(old(State()), tenantId, txs, key, now)
    {
      // The state to roll back to.
      var savedTransactions, savedNextId := transactions, nextId;
      var created := AddRows(tenantId, txs, now);

      // The flush checks `uq_tenant_external` on the table as it now stands.
      if !ExternalIdsUnique(transactions) {
        transactions, nextId := savedTransactions, savedNextId;
        return Err(Conflict("Duplicate bank transaction for tenant/external_id"));
      }

      var response := Views(created);
      idempotencyKeys := idempotencyKeys + [IdempotencyRecord(nextId, tenantId, key, Fingerprint(txs), response)];
      nextId := nextId + 1;
      r := Ok(response);
    }

    /** The loop of `import_transactions` that builds one row per batch element
        and adds it to the session. */
    method AddRows(tenantId: Id, txs: seq<TransactionInput>, now: Timestamp) returns (created: seq<BankTransaction>)
      modifies this
      ensures created == NewRows(txs, tenantId, old(nextId), now)
      ensures State() == old(State()).(transactions := old(transactions) + created, nextId := old(nextId) + |txs|)
    {
      created := [];
      var i := 0;
      while i < |txs|
        invariant 0 <= i <= |txs|
        invariant created == NewRows(txs[..i], tenantId, old(nextId), now)
        invariant State() == old(State()).(transactions := old(transactions) + created, nextId := old(nextId) + i)
      {
        var obj := NewTransaction(nextId, tenantId, txs[i], now);
        transactions := transactions + [obj];
        created := created + [obj];
        nextId := nextId + 1;
        assert NewRows(txs[..i + 1], tenantId, old(nextId), now) == NewRows(txs[..i], tenantId, old(nextId), now) + [obj];
        i := i + 1;
      }
      assert txs[..i] == txs;
    }

    /** `reconcile`: score every (invoice, transaction) pair of the tenant,
        invoice-major, and add a `proposed` match for each positive score. */
    method Reconcile(tenantId: Id, now: Timestamp) returns (r: Result<seq<Match>>)
      requires Valid()
      modifies this
      ensures Valid()
      ensures Step(r, State()) == ReconcileStep(old(State()), tenantId, now)
      ensures Isolated(old(State()), State(), tenantId)
    {
      var tenant := GetTenant(tenants, tenantId);
      if tenant.Err? {
        return Err(tenant.error);
      }
      var invs := Filter(invoices, InvoiceOwnedBy(tenantId));
      var txs := Filter(transactions, TransactionOwnedBy(tenantId));
      if invs == [] {
        return Err(NotFound("No invoices found for tenant"));
      }
      if txs == [] {
        return Err(NotFound("No bank transactions found for tenant"));
      }
      ReconcileKeepsValid(State(), tenantId, now);
      var made := Sweep(tenantId, invs, txs, now);
      r := Ok(made);
    }

    /** The outer loop of `reconcile`, over the tenant's invoices. */
    method Sweep(tenantId: Id, invs: seq<Invoice>, txs: seq<BankTransaction>, now: Timestamp) returns (made: seq<Match>)
      modifies this
      ensures made == ProposedMatches(Candidates(invs, txs), tenantId, old(nextId), now)
      ensures tenants == old(tenants) && invoices == old(invoices)
      ensures transactions == old(transactions) && idempotencyKeys == old(idempotencyKeys)
      ensures matches == old(matches) + made && nextId == old(nextId) + |made|
    {
      made := [];
      var i := 0;
      while i < |invs|
        invariant 0 <= i <= |invs|
        invariant made == ProposedMatches(Candidates(invs[..i], txs), tenantId, old(nextId), now)
        invariant tenants == old(tenants) && invoices == old(invoices)
        invariant transactions == old(transactions) && idempotencyKeys == old(idempotencyKeys)
        invariant matches == old(matches) + made && nextId == old(nextId) + |made|
      {
        var row := SweepRow(tenantId, invs[i], txs, now);
        SweepStep(invs, txs, i, tenantId, old(nextId), now, made, row);
        made := made + row;
        i := i + 1;
      }
      assert invs[..i] == invs;
    }

    /** The inner loop of `reconcile`, over the tenant's transactions for one invoice. */
    method SweepRow(tenantId: Id, inv: Invoice, txs: seq<BankTransaction>, now: Timestamp) returns (made: seq<Match>)
      modifies this
      ensures made == ProposedMatches(RowCandidates(inv, txs), tenantId, old(nextId), now)
      ensures tenants == old(tenants) && invoices == old(invoices)
      ensures transactions == old(transactions) && idempotencyKeys == old(idempotencyKeys)
      ensures matches == old(matches) + made && nextId == old(nextId) + |made|
    {
      made := [];
      var j := 0;
      while j < |txs|
        invariant 0 <= j <= |txs|
        invariant made == ProposedMatches(RowCandidates(inv, txs[..j]), tenantId, old(nextId), now)
        invariant tenants == old(tenants) && invoices == old(invoices)
        invariant transactions == old(transactions) && idempotencyKeys == old(idempotencyKeys)
        invariant matches == old(matches) + made && nextId == old(nextId) + |made|
      {
        var tx := txs[j];
        var s := ScoreMatch(inv, tx);
        SweepRowStep(inv, txs, j, tenantId, old(nextId), now);
        if s > 0 {
          var m := NewMatch(nextId, tenantId, inv.id, tx.id, s, now);
          matches := matches + [m];
          made := made + [m];
          nextId := nextId + 1;
        }
        j := j + 1;
      }
      assert txs[..j] == txs;
    }

    /** `confirm_match`: a `proposed` match of the tenant becomes `confirmed`
        and its invoice `matched`; when the invoice is gone the status change
        is rolled back. */
    method ConfirmMatch(tenantId: Id, matchId: Id) returns (r: Result<Match>)
      requires Valid()
      modifies this
      ensures Valid()
      ensures Step(r, State()) == ConfirmStep(old(State()), tenantId, matchId)
      ensures Isolated(old(State()), State(), tenantId)
    {
      var tenant := GetTenant(tenants, tenantId);
      if tenant.Err? {
        return Err(tenant.error);
      }
      var found := FirstIndex(matches, MatchOf(tenantId, matchId));
      if found.None? {
        return Err(NotFound("Match not found for tenant"));
      }
      var k := found.value;
      var m := matches[k];
      if m.status == Confirmed {
        return Err(Conflict("Match is already confirmed"));
      }
      // The state to roll back to.
      var savedMatches := matches;
      var confirmed := m.(status := Confirmed);
      matches := matches[k := confirmed];

      var invoice := FirstIndex(invoices, InvoiceOf(tenantId, m.invoiceId));
      if invoice.None? {
        matches := savedMatches;
        return Err(NotFound("Invoice for match not found"));
      }
      var j := invoice.value;
      ConfirmKeepsValid(old(State()), tenantId, matchId);
      invoices := invoices[j := invoices[j].(status := Matched)];
      r := Ok(confirmed);
    }
  }

  // ---------------------------------------------------------------------
  // Each unit of work keeps the invariant and touches only its own tenant.

  lemma AddTenantKeepsValid(t: Tables, tenant: Tenant)
    requires TablesValid(t) && tenant.id == t.nextId
    ensures
      var after := t.(tenants := t.tenants + [tenant], nextId := t.nextId + 1);
      && TablesValid(after)
      && PartitionOf(after, tenant.id) == Partition([], [], [], [])
      && Isolated(t, after, tenant.id)
  {
    var ts := t.tenants + [tenant];
    forall i | 0 <= i < |t.invoices| ensures HasTenant(ts, t.invoices[i].tenantId) && t.invoices[i].tenantId != tenant.id {
      HasTenantGrows(t.tenants, [tenant], t.invoices[i].tenantId);
    }
    forall i | 0 <= i < |t.transactions| ensures HasTenant(ts, t.transactions[i].tenantId) && t.transactions[i].tenantId != tenant.id {
      HasTenantGrows(t.tenants, [tenant], t.transactions[i].tenantId);
    }
    forall i | 0 <= i < |t.matches| ensures HasTenant(ts, t.matches[i].tenantId) && t.matches[i].tenantId != tenant.id {
      HasTenantGrows(t.tenants, [tenant], t.matches[i].tenantId);
    }
    forall i | 0 <= i < |t.idempotencyKeys| ensures HasTenant(ts, t.idempotencyKeys[i].tenantId) && t.idempotencyKeys[i].tenantId != tenant.id {
      HasTenantGrows(t.tenants, [tenant], t.idempotencyKeys[i].tenantId);
    }
    FilterNone(t.invoices, InvoiceOwnedBy(tenant.id));
    FilterNone(t.transactions, TransactionOwnedBy(tenant.id));
    FilterNone(t.matches, MatchOwnedBy(tenant.id));
    FilterNone(t.idempotencyKeys, RecordOwnedBy(tenant.id));
  }

  lemma AddInvoiceKeepsValid(t: Tables, inv: Invoice)
    requires TablesValid(t) && inv.id == t.nextId && HasTenant(t.tenants, inv.tenantId)
    ensures
      var after := t.(invoices := t.invoices + [inv], nextId := t.nextId + 1);
      TablesValid(after) && Isolated(t, after, inv.tenantId)
  {
    forall other | other != inv.tenantId
      ensures Filter(t.invoices + [inv], InvoiceOwnedBy(other)) == Filter(t.invoices, InvoiceOwnedBy(other))
    {
      FilterConcat(t.invoices, [inv], InvoiceOwnedBy(other));
      FilterNone([inv], InvoiceOwnedBy(other));
    }
  }

  /** Removing invoice `k` leaves no invoice with its id, since ids are distinct. */
  lemma RemoveInvoiceKeepsValid(t: Tables, k: nat)
    requires TablesValid(t) && k < |t.invoices|
    ensures
      var after := t.(invoices := t.invoices[..k] + t.invoices[k + 1..]);
      && TablesValid(after)
      && Isolated(t, after, t.invoices[k].tenantId)
      && forall i :: 0 <= i < |after.invoices| ==> after.invoices[i].id != t.invoices[k].id
  {
    var before, rest := t.invoices, t.invoices[..k] + t.invoices[k + 1..];
    assert forall i :: 0 <= i < |rest| ==> rest[i] == if i < k then before[i] else before[i + 1];
    forall other | other != before[k].tenantId
      ensures Filter(rest, InvoiceOwnedBy(other)) == Filter(before, InvoiceOwnedBy(other))
    {
      FilterRemoveRejected(before, k, InvoiceOwnedBy(other));
    }
  }

  lemma ImportKeepsValid(t: Tables, tenantId: Id, batch: seq<TransactionInput>, key: string, now: Timestamp)
    requires TablesValid(t)
    ensures
      var s := ImportStep(t, tenantId, batch, key, now);
      TablesValid(s.tables) && Isolated(t, s.tables, tenantId)
  {
    if GetTenant(t.tenants, tenantId).Ok? && !BlankKey(key) && batch != []
       && FirstIndex(t.idempotencyKeys, RecordOf(tenantId, key)).None? {
      ImportBatchKeepsValid(t, tenantId, batch, key, now);
    }
  }

  /** The tables after a first import of a batch satisfy the invariant again. */
  lemma ImportBatchKeepsValid(t: Tables, tenantId: Id, batch: seq<TransactionInput>, key: string, now: Timestamp)
    requires TablesValid(t) && HasTenant(t.tenants, tenantId) && batch != []
    requires FirstIndex(t.idempotencyKeys, RecordOf(tenantId, key)).None?
    ensures ExternalIdsUnique(t.transactions + NewRows(batch, tenantId, t.nextId, now)) ==>
      var after := AfterImport(t, tenantId, batch, key, now);
      TablesValid(after) && Isolated(t, after, tenantId)
  {
    var rows := NewRows(batch, tenantId, t.nextId, now);
    if ExternalIdsUnique(t.transactions + rows) {
      ImportRowsValid(t, tenantId, batch, now);
      ImportRecordValid(t, tenantId, batch, key, now);
      ImportIsolated(t, tenantId, batch, key, now);
    }
  }

  lemma ImportIsolated(t: Tables, tenantId: Id, batch: seq<TransactionInput>, key: string, now: Timestamp)
    ensures Isolated(t, AfterImport(t, tenantId, batch, key, now), tenantId)
  {
    var rows := NewRows(batch, tenantId, t.nextId, now);
    var record := IdempotencyRecord(t.nextId + |batch|, tenantId, key, Fingerprint(batch), Views(rows));
    forall other | other != tenantId
      ensures Filter(t.transactions + rows, TransactionOwnedBy(other)) == Filter(t.transactions, TransactionOwnedBy(other))
      ensures Filter(t.idempotencyKeys + [record], RecordOwnedBy(other)) == Filter(t.idempotencyKeys, RecordOwnedBy(other))
    {
      FilterConcat(t.transactions, rows, TransactionOwnedBy(other));
      FilterNone(rows, TransactionOwnedBy(other));
      FilterConcat(t.idempotencyKeys, [record], RecordOwnedBy(other));
      FilterNone([record], RecordOwnedBy(other));
    }
  }

  /** The imported rows keep the transactions table and the links of the
      existing matches valid. */
  lemma ImportRowsValid(t: Tables, tenantId: Id, batch: seq<TransactionInput>, now: Timestamp)
    requires TablesValid(t) && HasTenant(t.tenants, tenantId)
    requires ExternalIdsUnique(t.transactions + NewRows(batch, tenantId, t.nextId, now))
    ensures TransactionsValid(t.transactions + NewRows(batch, tenantId, t.nextId, now), t.tenants, t.nextId + |batch| + 1)
    ensures MatchesValid(t.matches, t.tenants, t.transactions + NewRows(batch, tenantId, t.nextId, now), t.nextId + |batch| + 1)
  {
    var existing, rows := t.transactions, NewRows(batch, tenantId, t.nextId, now);
    var all := existing + rows;
    forall i | 0 <= i < |all| ensures all[i].id < t.nextId + |batch| && HasTenant(t.tenants, all[i].tenantId) {
      if i >= |existing| {
        assert all[i] == rows[i - |existing|];
      }
    }
    forall i, j | 0 <= i < j < |all| ensures all[i].id != all[j].id {
      if j >= |existing| {
        assert all[j] == rows[j - |existing|];
        if i >= |existing| {
          assert all[i] == rows[i - |existing|];
        }
      }
    }
    forall i | 0 <= i < |t.matches|
      ensures HasTransaction(all, t.matches[i].tenantId, t.matches[i].bankTransactionId)
    {
      HasTransactionGrows(existing, rows, t.matches[i].tenantId, t.matches[i].bankTransactionId);
    }
  }

  /** The new idempotency record is valid and its (tenant, key) pair is new. */
  lemma ImportRecordValid(t: Tables, tenantId: Id, batch: seq<TransactionInput>, key: string, now: Timestamp)
    requires TablesValid(t) && HasTenant(t.tenants, tenantId) && batch != []
    requires FirstIndex(t.idempotencyKeys, RecordOf(tenantId, key)).None?
    ensures
      var rows := NewRows(batch, tenantId, t.nextId, now);
      var record := IdempotencyRecord(t.nextId + |batch|, tenantId, key, Fingerprint(batch), Views(rows));
      KeysValid(t.idempotencyKeys + [record], t.tenants, t.nextId + |batch| + 1)
  {
    var rows := NewRows(batch, tenantId, t.nextId, now);
    var views := Views(rows);
    var record := IdempotencyRecord(t.nextId + |batch|, tenantId, key, Fingerprint(batch), views);
    forall v | v in views ensures v.tenantId == tenantId {
      var i :| 0 <= i < |views| && views[i] == v;
      assert Deserialize(v) == Some(rows[i]);
    }
    assert RecordValid(record);
    var recs := t.idempotencyKeys + [record];
    assert forall i :: 0 <= i < |t.idempotencyKeys| ==> recs[i] == t.idempotencyKeys[i];
    assert recs[|t.idempotencyKeys|] == record;
  }

  /** The matches a sweep appends satisfy the invariant and belong to the
      swept tenant. */
  lemma SweepKeepsValid(t: Tables, tenantId: Id, now: Timestamp)
    requires TablesValid(t) && HasTenant(t.tenants, tenantId)
    ensures
      var made := SweepOf(t, tenantId, now);
      var after := t.(matches := t.matches + made, nextId := t.nextId + |made|);
      TablesValid(after) && Isolated(t, after, tenantId)
  {
    SweepMatchesValid(t, tenantId, now);
    SweepIsolated(t, tenantId, now);
  }

  lemma SweepMatchesValid(t: Tables, tenantId: Id, now: Timestamp)
    requires TablesValid(t) && HasTenant(t.tenants, tenantId)
    ensures
      var made := SweepOf(t, tenantId, now);
      MatchesValid(t.matches + made, t.tenants, t.transactions, t.nextId + |made|)
  {
    var made := SweepOf(t, tenantId, now);
    var all := t.matches + made;
    forall i | 0 <= i < |all|
      ensures all[i].id < t.nextId + |made| && HasTenant(t.tenants, all[i].tenantId) && 0 < all[i].score <= 80
      ensures HasTransaction(t.transactions, all[i].tenantId, all[i].bankTransactionId)
      ensures i >= |t.matches| ==> all[i].id == t.nextId + (i - |t.matches|)
    {
      if i >= |t.matches| {
        SweepMatchAt(t, tenantId, now, i - |t.matches|);
      }
    }
    assert forall i, j :: 0 <= i < j < |all| ==> all[i].id != all[j].id;
  }

  /** The `k`-th match a sweep proposes has the `k`-th fresh id, belongs to
      the swept tenant, has a positive score and names one of its transactions. */
  lemma SweepMatchAt(t: Tables, tenantId: Id, now: Timestamp, k: nat)
    requires k < |SweepOf(t, tenantId, now)|
    ensures
      var m := SweepOf(t, tenantId, now)[k];
      && m.id == t.nextId + k && m.tenantId == tenantId && 0 < m.score <= 80
      && HasTransaction(t.transactions, tenantId, m.bankTransactionId)
  {
    var invs := Filter(t.invoices, InvoiceOwnedBy(tenantId));
    var txs := Filter(t.transactions, TransactionOwnedBy(tenantId));
    var cands := Candidates(invs, txs);
    ProposedMatchesAt(cands, tenantId, t.nextId, now, k);
    CandidatesFromSweep(invs, txs, cands[k]);
    var j :| 0 <= j < |txs| && txs[j].id == cands[k].transactionId;
    var n :| 0 <= n < |t.transactions| && t.transactions[n] == txs[j];
  }

  lemma SweepIsolated(t: Tables, tenantId: Id, now: Timestamp)
    ensures
      var made := SweepOf(t, tenantId, now);
      Isolated(t, t.(matches := t.matches + made, nextId := t.nextId + |made|), tenantId)
  {
    var cands := Candidates(Filter(t.invoices, InvoiceOwnedBy(tenantId)), Filter(t.transactions, TransactionOwnedBy(tenantId)));
    var made := SweepOf(t, tenantId, now);
    forall other | other != tenantId
      ensures Filter(t.matches + made, MatchOwnedBy(other)) == Filter(t.matches, MatchOwnedBy(other))
    {
      forall k | 0 <= k < |made| ensures !MatchOwnedBy(other)(made[k]) {
        ProposedMatchesAt(cands, tenantId, t.nextId, now, k);
      }
      FilterConcat(t.matches, made, MatchOwnedBy(other));
      FilterNone(made, MatchOwnedBy(other));
    }
  }

  /** Confirming match `k` and marking invoice `j` of the same tenant keeps
      the invariant: ids, owners, scores and links are untouched. */
  lemma ConfirmAtKeepsValid(t: Tables, k: nat, j: nat)
    requires TablesValid(t) && k < |t.matches| && j < |t.invoices|
    requires t.invoices[j].tenantId == t.matches[k].tenantId
    ensures
      var after := AfterConfirm(t, k, j);
      TablesValid(after) && Isolated(t, after, t.matches[k].tenantId)
  {
    var tenantId := t.matches[k].tenantId;
    forall other | other != tenantId
      ensures Filter(t.matches[k := t.matches[k].(status := Confirmed)], MatchOwnedBy(other)) == Filter(t.matches, MatchOwnedBy(other))
      ensures Filter(t.invoices[j := t.invoices[j].(status := Matched)], InvoiceOwnedBy(other)) == Filter(t.invoices, InvoiceOwnedBy(other))
    {
      FilterUpdateRejected(t.matches, k, t.matches[k].(status := Confirmed), MatchOwnedBy(other));
      FilterUpdateRejected(t.invoices, j, t.invoices[j].(status := Matched), InvoiceOwnedBy(other));
    }
  }

  lemma DeleteKeepsValid(t: Tables, tenantId: Id, invoiceId: Id)
    requires TablesValid(t)
    ensures
      var s := DeleteStep(t, tenantId, invoiceId);
      && TablesValid(s.tables) && Isolated(t, s.tables, tenantId)
      && (s.result.Ok? ==> forall i :: 0 <= i < |s.tables.invoices| ==> s.tables.invoices[i].id != invoiceId)
  {
    if GetTenant(t.tenants, tenantId).Ok? {
      var found := FirstIndex(t.invoices, InvoiceOf(tenantId, invoiceId));
      if found.Some? {
        RemoveInvoiceKeepsValid(t, found.value);
      }
    }
  }

  lemma ReconcileKeepsValid(t: Tables, tenantId: Id, now: Timestamp)
    requires TablesValid(t)
    ensures
      var s := ReconcileStep(t, tenantId, now);
      TablesValid(s.tables) && Isolated(t, s.tables, tenantId)
  {
    var s := ReconcileStep(t, tenantId, now);
    if s.result.Ok? {
      var made := SweepOf(t, tenantId, now);
      assert GetTenant(t.tenants, tenantId).Ok?;
      assert s == Step(Ok(made), t.(matches := t.matches + made, nextId := t.nextId + |made|));
      SweepKeepsValid(t, tenantId, now);
    }
  }

  lemma ConfirmKeepsValid(t: Tables, tenantId: Id, matchId: Id)
    requires TablesValid(t)
    ensures
      var s := ConfirmStep(t, tenantId, matchId);
      TablesValid(s.tables) && Isolated(t, s.tables, tenantId)
  {
    if GetTenant(t.tenants, tenantId).Ok? {
      match FirstIndex(t.matches, MatchOf(tenantId, matchId))
      case None =>
      case Some(k) =>
        var m := t.matches[k];
        if m.status != Confirmed {
          match FirstIndex(t.invoices, InvoiceOf(tenantId, m.invoiceId))
          case None =>
          case Some(j) => ConfirmAtKeepsValid(t, k, j);
        }
    }
  }

  /** One step of the outer loop of `reconcile`: the next invoice's row of
      matches, numbered on from the rows before it. */
  lemma SweepStep(invs: seq<Invoice>, txs: seq<BankTransaction>, i: nat, tenantId: Id, firstId: Id, now: Timestamp,
                  done: seq<Match>, row: seq<Match>)
    requires i < |invs|
    requires done == ProposedMatches(Candidates(invs[..i], txs), tenantId, firstId, now)
    requires row == ProposedMatches(RowCandidates(invs[i], txs), tenantId, firstId + |done|, now)
    ensures done + row == ProposedMatches(Candidates(invs[..i + 1], txs), tenantId, firstId, now)
  {
    assert invs[..i + 1][..i] == invs[..i] && invs[..i + 1][i] == invs[i];
    ProposedMatchesConcat(Candidates(invs[..i], txs), RowCandidates(invs[i], txs), tenantId, firstId, now);
  }

  /** One step of the inner loop of `reconcile`: a positive score adds one
      match with the next fresh id, any other score adds nothing. */
  lemma SweepRowStep(inv: Invoice, txs: seq<BankTransaction>, j: nat, tenantId: Id, firstId: Id, now: Timestamp)
    requires j < |txs|
    ensures
      var done := ProposedMatches(RowCandidates(inv, txs[..j]), tenantId, firstId, now);
      var s := ScoreMatch(inv, txs[j]);
      ProposedMatches(RowCandidates(inv, txs[..j + 1]), tenantId, firstId, now)
      == done + if s > 0 then [NewMatch(firstId + |done|, tenantId, inv.id, txs[j].id, s, now)] else []
  {
    assert txs[..j + 1][..j] == txs[..j] && txs[..j + 1][j] == txs[j];
    var done := RowCandidates(inv, txs[..j]);
    if ScoreMatch(inv, txs[j]) > 0 {
      ProposedMatchesSnoc(done, CandidateOf(inv, txs[j]), tenantId, firstId, now);
    } else {
      assert RowCandidates(inv, txs[..j + 1]) == done;
    }
  }
}
