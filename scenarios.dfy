/** Client code over the service layer: sequences of calls whose combined
    outcome the service promises, each proved from the contracts of the
    entry points alone. */
module Scenarios {
  import opened Outcomes
  import opened Seqs
  import opened Strings
  import opened Models
  import opened Reconciliation
  import opened ServicesSpec
  import opened Services

  /** After a successful import the first record under (tenant, key) holds
      the fingerprint of that batch and the response just given. */
  lemma ImportLeavesRecord(t: Tables, tenantId: Id, batch: seq<TransactionInput>, key: string, now: Timestamp)
    ensures
      var first := ImportStep(t, tenantId, batch, key, now);
      var found := FirstIndex(first.tables.idempotencyKeys, RecordOf(tenantId, key));
      first.result.Ok? ==>
        && found.Some?
        && first.tables.idempotencyKeys[found.value].payloadHash == Fingerprint(batch)
        && first.tables.idempotencyKeys[found.value].response == first.result.value
  {
    var first := ImportStep(t, tenantId, batch, key, now);
    if first.result.Ok? {
      assert HasTenant(t.tenants, tenantId) && !BlankKey(key) && batch != [];
      var found := FirstIndex(t.idempotencyKeys, RecordOf(tenantId, key));
      if found.Some? {
        var rec := t.idempotencyKeys[found.value];
        assert rec.payloadHash == Fingerprint(batch);
        assert first.tables == t && first.result == Ok(rec.response);
      } else {
        var rows := NewRows(batch, tenantId, t.nextId, now);
        assert ExternalIdsUnique(t.transactions + rows);
        assert first == Step(Ok(Views(rows)), AfterImport(t, tenantId, batch, key, now));
        FreshImportRecord(t, tenantId, batch, key, now);
      }
    }
  }

  /** A fresh key's record is the one `.first()` finds after the import. */
  lemma FreshImportRecord(t: Tables, tenantId: Id, batch: seq<TransactionInput>, key: string, now: Timestamp)
    requires FirstIndex(t.idempotencyKeys, RecordOf(tenantId, key)).None?
    ensures
      var after := AfterImport(t, tenantId, batch, key, now);
      var m := |t.idempotencyKeys|;
      && FirstIndex(after.idempotencyKeys, RecordOf(tenantId, key)) == Some(m)
      && after.idempotencyKeys[m].payloadHash == Fingerprint(batch)
      && after.idempotencyKeys[m].response == Views(NewRows(batch, tenantId, t.nextId, now))
  {
    var rows := NewRows(batch, tenantId, t.nextId, now);
    var rec := IdempotencyRecord(t.nextId + |batch|, tenantId, key, Fingerprint(batch), Views(rows));
    FirstIndexAppend(t.idempotencyKeys, rec, RecordOf(tenantId, key));
  }

  /** A second import under the same key with the same batch replays the
      first response and commits nothing more. */
  lemma ReplayReturnsFirstResponse(t: Tables, tenantId: Id, batch: seq<TransactionInput>, key: string, now: Timestamp, later: Timestamp)
    ensures
      var first := ImportStep(t, tenantId, batch, key, now);
      first.result.Ok? ==> ImportStep(first.tables, tenantId, batch, key, later) == first
  {
    ImportLeavesRecord(t, tenantId, batch, key, now);
  }

  /** A second import under the same key with a different batch is refused
      and commits nothing. */
  lemma OtherPayloadConflicts(t: Tables, tenantId: Id, batch: seq<TransactionInput>, other: seq<TransactionInput>,
                              key: string, now: Timestamp, later: Timestamp)
    requires other != [] && Fingerprint(other) != Fingerprint(batch)
    ensures
      var first := ImportStep(t, tenantId, batch, key, now);
      first.result.Ok? ==>
        ImportStep(first.tables, tenantId, other, key, later) == Step(Err(Conflict("Idempotency conflict")), first.tables)
  {
    ImportLeavesRecord(t, tenantId, batch, key, now);
  }

  /** On valid tables a successful import answers with one view per element
      of the batch, whether it inserted the batch or replayed it. */
  lemma ImportAnswersWholeBatch(t: Tables, tenantId: Id, batch: seq<TransactionInput>, key: string, now: Timestamp)
    requires TablesValid(t)
    ensures
      var s := ImportStep(t, tenantId, batch, key, now);
      s.result.Ok? ==> |s.result.value| == |batch| && forall v :: v in s.result.value ==> v.tenantId == tenantId
  {
    var s := ImportStep(t, tenantId, batch, key, now);
    if s.result.Ok? {
      match FirstIndex(t.idempotencyKeys, RecordOf(tenantId, key))
      case Some(k) =>
        assert RecordValid(t.idempotencyKeys[k]);
      case None =>
        var rows := NewRows(batch, tenantId, t.nextId, now);
        var views := Views(rows);
        forall v | v in views ensures v.tenantId == tenantId {
          var i :| 0 <= i < |views| && views[i] == v;
          assert Deserialize(v) == Some(rows[i]);
        }
    }
  }

  /** Confirming a match a second time is a conflict that commits nothing. */
  lemma ConfirmTwiceConflicts(t: Tables, tenantId: Id, matchId: Id)
    ensures
      var first := ConfirmStep(t, tenantId, matchId);
      first.result.Ok? ==>
        ConfirmStep(first.tables, tenantId, matchId) == Step(Err(Conflict("Match is already confirmed")), first.tables)
  {
    var first := ConfirmStep(t, tenantId, matchId);
    if first.result.Ok? {
      var k := FirstIndex(t.matches, MatchOf(tenantId, matchId)).value;
      FirstIndexStable(t.matches, first.tables.matches, MatchOf(tenantId, matchId));
      assert first.tables.matches[k].status == Confirmed;
    }
  }

  /** `reconcile` does not look at existing matches: a second run proposes
      the same pairs with the same scores again, under fresh ids. */
  lemma ReconcileTwiceDuplicates(t: Tables, tenantId: Id, now: Timestamp, later: Timestamp)
    ensures
      var first := ReconcileStep(t, tenantId, now);
      var second := ReconcileStep(first.tables, tenantId, later);
      first.result.Ok? ==>
        && second.result.Ok? && |second.result.value| == |first.result.value|
        && |second.tables.matches| == |t.matches| + 2 * |first.result.value|
        && forall k :: 0 <= k < |first.result.value| ==>
             && second.result.value[k].invoiceId == first.result.value[k].invoiceId
             && second.result.value[k].bankTransactionId == first.result.value[k].bankTransactionId
             && second.result.value[k].score == first.result.value[k].score
             && second.result.value[k].id != first.result.value[k].id
  {
    var first := ReconcileStep(t, tenantId, now);
    if first.result.Ok? {
      var cands := Candidates(Filter(t.invoices, InvoiceOwnedBy(tenantId)), Filter(t.transactions, TransactionOwnedBy(tenantId)));
      var made := first.result.value;
      assert made == ProposedMatches(cands, tenantId, t.nextId, now);
      var second := ReconcileStep(first.tables, tenantId, later);
      assert second.result.value == ProposedMatches(cands, tenantId, t.nextId + |made|, later);
      forall k | 0 <= k < |made|
        ensures && second.result.value[k].invoiceId == made[k].invoiceId
                && second.result.value[k].bankTransactionId == made[k].bankTransactionId
                && second.result.value[k].score == made[k].score
                && second.result.value[k].id != made[k].id
      {
        ProposedMatchesAt(cands, tenantId, t.nextId, now, k);
        ProposedMatchesAt(cands, tenantId, t.nextId + |made|, later, k);
      }
    }
  }

  /** The confirm-match flow end to end on an empty store: one invoice, one
      imported transaction, a sweep that proposes the pair with score 80, and
      a confirmation that marks the invoice `matched`. */
  method ConfirmMatchFlow(now: Timestamp) returns (store: Store, proposed: Result<seq<Match>>, confirmed: Result<Match>)
    ensures proposed == Ok([SeedMatch(now)])
    ensures confirmed == Ok(SeedMatch(now).(status := Confirmed))
    ensures store.invoices == [SeedInvoice(now).(status := Matched)]
  {
    store, proposed := ConfirmMatchFlowUntilProposed(now);
    SeedConfirm(now);
    confirmed := store.ConfirmMatch(0, 4);
  }

  /** A tenant with invoices but no imported transactions cannot be reconciled. */
  method ReconcileRequiresTransactions(now: Timestamp) returns (store: Store, r: Result<seq<Match>>)
    ensures r == Err(NotFound("No bank transactions found for tenant"))
    ensures StatusCode(r.error) == 404
    ensures store.matches == []
  {
    var data := InvoiceInput(100.0, "USD", Some("Office Supplies"), None);
    store := StoreWithInvoice(data, now);
    NoTransactionsNoReconcile(data, now);
    r := store.Reconcile(0, now);
  }

  /** A match whose invoice was deleted after the sweep cannot be confirmed,
      and the failed confirmation leaves the match `proposed`. */
  method OrphanedMatchIsNotConfirmed(now: Timestamp) returns (store: Store, confirmed: Result<Match>)
    ensures confirmed == Err(NotFound("Invoice for match not found"))
    ensures store.matches == [SeedMatch(now)] && store.matches[0].status == Proposed && store.invoices == []
  {
    var proposed;
    store, proposed := ConfirmMatchFlowUntilProposed(now);
    SeedOrphan(now);
    var deleted := store.DeleteInvoice(0, 1);
    confirmed := store.ConfirmMatch(0, 4);
  }

  /** The first half of the confirm-match flow: a store holding one tenant,
      one invoice, one transaction and the one match proposed for them. */
  method ConfirmMatchFlowUntilProposed(now: Timestamp) returns (store: Store, proposed: Result<seq<Match>>)
    ensures fresh(store) && store.Valid()
    ensures proposed == Ok([SeedMatch(now)])
    ensures store.State() == ProposedState(now)
  {
    store := StoreWithInvoice(SeedInvoiceInput(), now);
    SeedImport(now);
    var imported := store.ImportTransactions(0, [SeedInput()], "confirm-seed", now);
    SeedSweep(now);
    proposed := store.Reconcile(0, now);
  }

  /** A fresh store after `create_tenant` and one `create_invoice`. */
  method StoreWithInvoice(data: InvoiceInput, now: Timestamp) returns (store: Store)
    ensures fresh(store) && store.Valid()
    ensures store.State() == Tables([Tenant(0, "Tags", now)], [NewInvoice(1, 0, data, now)], [], [], [], 2)
  {
    store := new Store();
    var tenant := store.CreateTenant("Tags", now);
    assert store.State() == Tables([tenant], [], [], [], [], 1);
    assert GetTenant(store.tenants, 0) == Ok(tenant);
    var invoice := store.CreateInvoice(0, data, now);
  }

  // The tables of the confirm-match flow, step by step.

  function SeedInvoiceInput(): InvoiceInput {
    InvoiceInput(100.0, "USD", Some("Office Supplies"), Some(Feb20))
  }

  function SeedInput(): TransactionInput {
    TransactionInput(Some("tx-300"), 100.0, "USD", Some("Office Supplies Payment"), Some(Feb21))
  }

  function SeedInvoice(now: Timestamp): Invoice {
    Invoice(1, 0, 100.0, "USD", Some(Feb20), Some("Office Supplies"), Open, now)
  }

  function SeedTransaction(now: Timestamp): BankTransaction {
    BankTransaction(2, 0, Some("tx-300"), Some(Feb21), 100.0, "USD", Some("Office Supplies Payment"), now)
  }

  function SeedRecord(now: Timestamp): IdempotencyRecord {
    IdempotencyRecord(3, 0, "confirm-seed", Fingerprint([SeedInput()]), [Serialize(SeedTransaction(now))])
  }

  function SeedMatch(now: Timestamp): Match {
    NewMatch(4, 0, 1, 2, 80, now)
  }

  /** Tenant 0 with its invoice 1. */
  function SeedState(now: Timestamp): Tables {
    Tables([Tenant(0, "Tags", now)], [NewInvoice(1, 0, SeedInvoiceInput(), now)], [], [], [], 2)
  }

  /** After importing transaction 2 under "confirm-seed". */
  function ImportedState(now: Timestamp): Tables {
    Tables([Tenant(0, "Tags", now)], [SeedInvoice(now)], [SeedTransaction(now)], [], [SeedRecord(now)], 4)
  }

  /** After the sweep proposed match 4. */
  function ProposedState(now: Timestamp): Tables {
    ImportedState(now).(matches := [SeedMatch(now)], nextId := 5)
  }

  lemma SeedKeyNotBlank()
    ensures !BlankKey("confirm-seed")
  {
    assert !IsSpace("confirm-seed"[0]);
  }

  lemma SeedRows(now: Timestamp)
    ensures NewRows([SeedInput()], 0, 2, now) == [SeedTransaction(now)]
    ensures Views([SeedTransaction(now)]) == [Serialize(SeedTransaction(now))]
  {
    assert NewRows([SeedInput()], 0, 2, now)[0] == SeedTransaction(now);
  }

  lemma SeedImport(now: Timestamp)
    ensures ImportStep(SeedState(now), 0, [SeedInput()], "confirm-seed", now).tables == ImportedState(now)
  {
    var t := SeedState(now);
    SeedKeyNotBlank();
    SeedRows(now);
    assert GetTenant(t.tenants, 0).Ok?;
    assert FirstIndex(t.idempotencyKeys, RecordOf(0, "confirm-seed")) == None;
    assert ExternalIdsUnique([SeedTransaction(now)]);
    SeedAfterImport(now);
  }

  lemma SeedAfterImport(now: Timestamp)
    ensures AfterImport(SeedState(now), 0, [SeedInput()], "confirm-seed", now) == ImportedState(now)
  {
    SeedRows(now);
    assert SeedState(now).invoices == [SeedInvoice(now)];
  }

  /** Exact amount, one day apart and a contained description: one candidate of score 80. */
  lemma SeedCandidates(now: Timestamp)
    ensures Candidates([SeedInvoice(now)], [SeedTransaction(now)]) == [Candidate(1, 2, 80)]
  {
    var inv, tx := SeedInvoice(now), SeedTransaction(now);
    OfficeSuppliesScores80(0, now);
    assert ScoreMatch(inv, tx) == 80;
    assert [inv][..0] == [] && [tx][..0] == [];
    assert RowCandidates(inv, [tx]) == [Candidate(1, 2, 80)];
  }

  lemma SeedSweep(now: Timestamp)
    ensures ReconcileStep(ImportedState(now), 0, now) == Step(Ok([SeedMatch(now)]), ProposedState(now))
  {
    var t := ImportedState(now);
    var inv, tx := SeedInvoice(now), SeedTransaction(now);
    assert Filter([inv], InvoiceOwnedBy(0)) == [inv];
    assert Filter([tx], TransactionOwnedBy(0)) == [tx];
    assert GetTenant(t.tenants, 0).Ok?;
    SeedCandidates(now);
    ProposedMatchesAt([Candidate(1, 2, 80)], 0, 4, now, 0);
    var pm := ProposedMatches([Candidate(1, 2, 80)], 0, 4, now);
    assert pm == [SeedMatch(now)];
    assert SweepOf(t, 0, now) == pm;
  }

  /** Confirming match 4 confirms it and marks invoice 1 `matched`. */
  lemma SeedConfirm(now: Timestamp)
    ensures
      var t := ProposedState(now);
      ConfirmStep(t, 0, 4)
      == Step(Ok(SeedMatch(now).(status := Confirmed)),
              t.(matches := [SeedMatch(now).(status := Confirmed)], invoices := [SeedInvoice(now).(status := Matched)]))
  {
    var t := ProposedState(now);
    var m := SeedMatch(now);
    assert GetTenant(t.tenants, 0).Ok?;
    assert FirstIndex(t.matches, MatchOf(0, 4)) == Some(0);
    assert FirstIndex(t.invoices, InvoiceOf(0, 1)) == Some(0);
    assert AfterConfirm(t, 0, 0)
        == t.(matches := [m.(status := Confirmed)], invoices := [SeedInvoice(now).(status := Matched)]);
  }

  /** Deleting invoice 1 succeeds, and confirming match 4 afterwards fails
      without committing anything. */
  lemma SeedOrphan(now: Timestamp)
    ensures DeleteStep(ProposedState(now), 0, 1) == Step(Ok(()), ProposedState(now).(invoices := []))
    ensures
      var t := ProposedState(now).(invoices := []);
      ConfirmStep(t, 0, 4) == Step(Err(NotFound("Invoice for match not found")), t)
  {
    var t := ProposedState(now);
    assert GetTenant(t.tenants, 0).Ok?;
    assert FirstIndex(t.invoices, InvoiceOf(0, 1)) == Some(0);
    assert FirstIndex(t.matches, MatchOf(0, 4)) == Some(0);
  }

  /** A store with one invoice and no transactions answers `reconcile` with 404. */
  lemma NoTransactionsNoReconcile(data: InvoiceInput, now: Timestamp)
    ensures
      var t := Tables([Tenant(0, "Tags", now)], [NewInvoice(1, 0, data, now)], [], [], [], 2);
      ReconcileStep(t, 0, now) == Step(Err(NotFound("No bank transactions found for tenant")), t)
  {
    var inv := NewInvoice(1, 0, data, now);
    assert Filter([inv], InvoiceOwnedBy(0)) == [inv];
    assert GetTenant([Tenant(0, "Tags", now)], 0).Ok?;
  }
}
