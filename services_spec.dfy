/** Pure parts of the service layer: the table queries it issues, the
    serialisation of bank transactions, the batch rows an import inserts, the
    candidate pairs a reconciliation sweep materialises, and the store
    invariant. */
module ServicesSpec {
  import opened Outcomes
  import opened Seqs
  import opened Strings
  import opened Models
  import opened Reconciliation

  // ---------------------------------------------------------------------
  // Row selectors of the queries (`filter_by(...)`)

  function TenantWithId(id: Id): Tenant -> bool {
    (t: Tenant) => t.id == id
  }

  function InvoiceOwnedBy(tenantId: Id): Invoice -> bool {
    (inv: Invoice) => inv.tenantId == tenantId
  }

  function InvoiceOf(tenantId: Id, invoiceId: Id): Invoice -> bool {
    (inv: Invoice) => inv.id == invoiceId && inv.tenantId == tenantId
  }

  function TransactionOwnedBy(tenantId: Id): BankTransaction -> bool {
    (tx: BankTransaction) => tx.tenantId == tenantId
  }

  function MatchOwnedBy(tenantId: Id): Match -> bool {
    (m: Match) => m.tenantId == tenantId
  }

  function MatchOf(tenantId: Id, matchId: Id): Match -> bool {
    (m: Match) => m.id == matchId && m.tenantId == tenantId
  }

  function RecordOwnedBy(tenantId: Id): IdempotencyRecord -> bool {
    (rec: IdempotencyRecord) => rec.tenantId == tenantId
  }

  function RecordOf(tenantId: Id, key: string): IdempotencyRecord -> bool {
    (rec: IdempotencyRecord) => rec.tenantId == tenantId && rec.key == key
  }

  ghost predicate HasTenant(tenants: seq<Tenant>, id: Id) {
    exists k :: 0 <= k < |tenants| && tenants[k].id == id
  }

  /** `_get_tenant_or_404`. */
  function GetTenant(tenants: seq<Tenant>, id: Id): (r: Result<Tenant>)
    ensures r.Ok? <==> HasTenant(tenants, id)
    ensures r.Ok? ==> r.value in tenants && r.value.id == id
    ensures r.Err? ==> r.error == NotFound("Tenant not found")
  {
    match FirstIndex(tenants, TenantWithId(id))
    case None => Err(NotFound("Tenant not found"))
    case Some(k) => Ok(tenants[k])
  }

  // ---------------------------------------------------------------------
  // `_serialize_bank_tx`

  function Serialize(tx: BankTransaction): (v: TransactionView)
    ensures Deserialize(v) == Some(tx)
  {
    TransactionView(tx.id, tx.tenantId, tx.externalId, tx.amount, tx.currency, tx.description,
                    tx.postedAt, Some(tx.createdAt))
  }

  /** Reads a stored view back as the row it describes; a view without its
      creation time describes no row. */
  function Deserialize(v: TransactionView): Option<BankTransaction> {
    match v.createdAt
    case None => None
    case Some(c) => Some(BankTransaction(v.id, v.tenantId, v.externalId, v.postedAt, v.amount, v.currency, v.description, c))
  }

  /** `[_serialize_bank_tx(tx) for tx in created]`. */
  function Views(rows: seq<BankTransaction>): (vs: seq<TransactionView>)
    ensures |vs| == |rows|
    ensures forall i :: 0 <= i < |rows| ==> Deserialize(vs[i]) == Some(rows[i])
  {
    seq(|rows|, i requires 0 <= i < |rows| => Serialize(rows[i]))
  }

  /** The rows a fresh import adds: one per batch element, in batch order, all
      owned by the importing tenant, with consecutive fresh ids. */
  function NewRows(batch: seq<TransactionInput>, tenantId: Id, firstId: Id, now: Timestamp): (rows: seq<BankTransaction>)
    ensures |rows| == |batch|
    ensures forall i :: 0 <= i < |batch| ==> rows[i] == NewTransaction(firstId + i, tenantId, batch[i], now)
  {
    seq(|batch|, i requires 0 <= i < |batch| => NewTransaction(firstId + i, tenantId, batch[i], now))
  }

  /** The idempotency key test `not key or not key.strip()`: the key is
      refused exactly when it is all whitespace, the empty key included. */
  function BlankKey(key: string): (b: bool)
    ensures b <==> forall i :: 0 <= i < |key| ==> IsSpace(key[i])
  {
    StripEmptyIffAllSpace(key);
    key == [] || Strip(key) == []
  }

  /** Why a batch breaks `uq_tenant_external`: one of its rows carries an
      external id that an existing row of the same tenant, or another row of
      the batch, already carries. */
  ghost predicate BatchCollides(existing: seq<BankTransaction>, rows: seq<BankTransaction>) {
    exists i :: 0 <= i < |rows| && rows[i].externalId.Some? &&
      ((exists k :: 0 <= k < |existing| && existing[k].tenantId == rows[i].tenantId
                                        && existing[k].externalId == rows[i].externalId)
       || (exists j :: 0 <= j < |rows| && j != i && rows[j].tenantId == rows[i].tenantId
                                      && rows[j].externalId == rows[i].externalId))
  }

  /** Inserting a batch into a table that satisfies the constraint violates it
      exactly when the batch collides with the table or with itself. */
  lemma ConstraintViolationIffCollision(existing: seq<BankTransaction>, rows: seq<BankTransaction>)
    requires ExternalIdsUnique(existing)
    ensures !ExternalIdsUnique(existing + rows) <==> BatchCollides(existing, rows)
  {
    if !ExternalIdsUnique(existing + rows) {
      ViolationIsCollision(existing, rows);
    }
    if BatchCollides(existing, rows) {
      CollisionIsViolation(existing, rows);
    }
  }

  lemma ViolationIsCollision(existing: seq<BankTransaction>, rows: seq<BankTransaction>)
    requires ExternalIdsUnique(existing) && !ExternalIdsUnique(existing + rows)
    ensures BatchCollides(existing, rows)
  {
    var all := existing + rows;
    var n := |existing|;
    var i, j :| 0 <= i < j < |all| && all[i].tenantId == all[j].tenantId && all[i].externalId.Some?
                && all[i].externalId == all[j].externalId;
    assert j >= n;
    if i < n {
      assert rows[j - n].externalId.Some? && existing[i].tenantId == rows[j - n].tenantId
             && existing[i].externalId == rows[j - n].externalId;
    } else {
      assert rows[j - n].externalId.Some? && rows[i - n].tenantId == rows[j - n].tenantId
             && rows[i - n].externalId == rows[j - n].externalId && i - n != j - n;
    }
  }

  lemma CollisionIsViolation(existing: seq<BankTransaction>, rows: seq<BankTransaction>)
    requires BatchCollides(existing, rows)
    ensures !ExternalIdsUnique(existing + rows)
  {
    var all := existing + rows;
    var n := |existing|;
    var i :| 0 <= i < |rows| && rows[i].externalId.Some? &&
      ((exists k :: 0 <= k < |existing| && existing[k].tenantId == rows[i].tenantId
                                        && existing[k].externalId == rows[i].externalId)
       || (exists j :: 0 <= j < |rows| && j != i && rows[j].tenantId == rows[i].tenantId
                                      && rows[j].externalId == rows[i].externalId));
    if k :| 0 <= k < |existing| && existing[k].tenantId == rows[i].tenantId
                                && existing[k].externalId == rows[i].externalId {
      assert all[k] == existing[k] && all[n + i] == rows[i];
    } else {
      var j :| 0 <= j < |rows| && j != i && rows[j].tenantId == rows[i].tenantId
                              && rows[j].externalId == rows[i].externalId;
      assert all[n + i] == rows[i] && all[n + j] == rows[j];
      if i < j {
        assert !(all[n + i].externalId.Some? ==> all[n + i].externalId != all[n + j].externalId);
      } else {
        assert !(all[n + j].externalId.Some? ==> all[n + j].externalId != all[n + i].externalId);
      }
    }
  }

  // ---------------------------------------------------------------------
  // `list_invoices`

  /** The optional filters of an invoice listing. */
  datatype InvoiceFilters = InvoiceFilters(status: Option<string>, minAmount: Option<real>, maxAmount: Option<real>)

  /** Python truthiness of a filter value: absent, "" and 0 switch it off. */
  predicate StatusFilterOn(f: InvoiceFilters) {
    f.status.Some? && f.status.value != ""
  }

  predicate MinAmountOn(f: InvoiceFilters) {
    f.minAmount.Some? && f.minAmount.value != 0.0
  }

  predicate MaxAmountOn(f: InvoiceFilters) {
    f.maxAmount.Some? && f.maxAmount.value != 0.0
  }

  /** What an invoice must satisfy to be listed under the filters. */
  function PassesFilters(inv: Invoice, f: InvoiceFilters): (b: bool)
    ensures !StatusFilterOn(f) && !MinAmountOn(f) && !MaxAmountOn(f) ==> b
    ensures StatusFilterOn(f) && f.status.value != "open" && f.status.value != "matched" ==> !b
    ensures MinAmountOn(f) && MaxAmountOn(f) && f.minAmount.value > f.maxAmount.value ==> !b
    // definitional: this clause restates the WHERE clause; InvoiceQuery states what it selects
    ensures b <==>
      && (StatusFilterOn(f) ==> inv.status.Name() == f.status.value)
      && (MinAmountOn(f) ==> inv.amount >= f.minAmount.value)
      && (MaxAmountOn(f) ==> inv.amount <= f.maxAmount.value)
  {
    && (StatusFilterOn(f) ==> inv.status.Name() == f.status.value)
    && (MinAmountOn(f) ==> inv.amount >= f.minAmount.value)
    && (MaxAmountOn(f) ==> inv.amount <= f.maxAmount.value)
  }

  /** The `WHERE` clause `list_invoices` builds: the tenant's invoices, and
      every filter that is switched on (successive `filter` calls conjoin). */
  function Listed(tenantId: Id, f: InvoiceFilters): Invoice -> bool {
    (inv: Invoice) => inv.tenantId == tenantId && PassesFilters(inv, f)
  }

  /** The query of `list_invoices`, with `offset(skip).limit(limit)`: of the
      tenant's invoices that pass the filters, in table order, the run that
      starts at position `skip` and holds at most `limit` of them; all of them
      when the window starts at 0 and is wide enough. */
  function InvoiceQuery(invoices: seq<Invoice>, tenantId: Id, f: InvoiceFilters, skip: nat, limit: nat): (r: seq<Invoice>)
    ensures |r| <= limit
    ensures forall i :: 0 <= i < |r| ==> r[i] in invoices && r[i].tenantId == tenantId && PassesFilters(r[i], f)
    ensures var listed := Filter(invoices, Listed(tenantId, f));
      && |r| == (if skip >= |listed| then 0 else if |listed| - skip < limit then |listed| - skip else limit)
      && forall i :: 0 <= i < |r| ==> skip + i < |listed| && r[i] == listed[skip + i]
    ensures skip == 0 && limit >= |Filter(invoices, Listed(tenantId, f))| ==>
      forall i :: 0 <= i < |invoices| && invoices[i].tenantId == tenantId && PassesFilters(invoices[i], f)
        ==> invoices[i] in r
  {
    var q := Filter(invoices, Listed(tenantId, f));
    assert forall i :: 0 <= i < |q| ==> Listed(tenantId, f)(q[i]);
    var r := Window(q, skip, limit);
    assert skip == 0 && limit >= |q| ==> r == q;
    r
  }

  // ---------------------------------------------------------------------
  // `reconcile`

  /** An (invoice, transaction) pair with a positive score, as a match row
      will record it. */
  datatype Candidate = Candidate(invoiceId: Id, transactionId: Id, score: int)

  function CandidateOf(inv: Invoice, tx: BankTransaction): Candidate {
    Candidate(inv.id, tx.id, ScoreMatch(inv, tx))
  }

  /** Whether a transaction scores against an invoice (`if s > 0`). */
  function ScoresAgainst(inv: Invoice): BankTransaction -> bool {
    (tx: BankTransaction) => ScoreMatch(inv, tx) > 0
  }

  /** The candidate of `inv` with each of `txs`, in order. */
  function PairsWith(inv: Invoice, txs: seq<BankTransaction>): seq<Candidate> {
    seq(|txs|, j requires 0 <= j < |txs| => CandidateOf(inv, txs[j]))
  }

  /** The inner loop of the sweep, for one invoice: the positively scoring
      transactions, in transaction order. */
  function RowCandidates(inv: Invoice, txs: seq<BankTransaction>): (r: seq<Candidate>)
    ensures |r| <= |txs|
  {
    if txs == [] then []
    else
      var tx := txs[|txs| - 1];
      RowCandidates(inv, txs[..|txs| - 1]) + (if ScoreMatch(inv, tx) > 0 then [CandidateOf(inv, tx)] else [])
  }

  /** The whole sweep: invoice-major, transaction-minor. */
  function Candidates(invs: seq<Invoice>, txs: seq<BankTransaction>): seq<Candidate> {
    if invs == [] then []
    else Candidates(invs[..|invs| - 1], txs) + RowCandidates(invs[|invs| - 1], txs)
  }

  lemma PairsWithConcat(inv: Invoice, a: seq<BankTransaction>, b: seq<BankTransaction>)
    ensures PairsWith(inv, a + b) == PairsWith(inv, a) + PairsWith(inv, b)
  {
    var whole, parts := PairsWith(inv, a + b), PairsWith(inv, a) + PairsWith(inv, b);
    forall j | 0 <= j < |whole| ensures whole[j] == parts[j] {
      if j >= |a| {
        assert (a + b)[j] == b[j - |a|];
      }
    }
  }

  /** One invoice's candidates are its pairs with the transactions that score
      against it, in transaction order, one per transaction. */
  lemma {:induction false} RowCandidatesFiltered(inv: Invoice, txs: seq<BankTransaction>)
    ensures RowCandidates(inv, txs) == PairsWith(inv, Filter(txs, ScoresAgainst(inv)))
  {
    if txs != [] {
      var init, last := txs[..|txs| - 1], txs[|txs| - 1];
      var keep := ScoresAgainst(inv);
      var kept := Filter(init, keep);
      RowCandidatesFiltered(inv, init);
      assert txs == init + [last];
      FilterConcat(init, [last], keep);
      assert [last][1..] == [];
      if keep(last) {
        assert Filter([last], keep) == [last];
        PairsWithConcat(inv, kept, [last]);
        assert PairsWith(inv, [last]) == [CandidateOf(inv, last)];
      } else {
        assert Filter([last], keep) == [];
        assert kept + [] == kept;
      }
    }
  }

  /** One invoice's candidates, in order and multiplicity, and as a set. */
  lemma RowCandidatesExact(inv: Invoice, txs: seq<BankTransaction>)
    ensures RowCandidates(inv, txs) == PairsWith(inv, Filter(txs, ScoresAgainst(inv)))
    ensures forall c :: c in RowCandidates(inv, txs) <==>
      exists j :: 0 <= j < |txs| && ScoreMatch(inv, txs[j]) > 0 && c == CandidateOf(inv, txs[j])
  {
    RowCandidatesFiltered(inv, txs);
    var keep := ScoresAgainst(inv);
    var kept := Filter(txs, keep);
    var row := PairsWith(inv, kept);
    forall c ensures c in row <==> exists j :: 0 <= j < |txs| && ScoreMatch(inv, txs[j]) > 0 && c == CandidateOf(inv, txs[j])
    {
      if c in row {
        var m :| 0 <= m < |kept| && row[m] == c;
        assert kept[m] in txs && keep(kept[m]);
        var j :| 0 <= j < |txs| && txs[j] == kept[m];
        assert ScoreMatch(inv, txs[j]) > 0 && c == CandidateOf(inv, txs[j]);
      }
      if j :| 0 <= j < |txs| && ScoreMatch(inv, txs[j]) > 0 && c == CandidateOf(inv, txs[j]) {
        assert keep(txs[j]);
        assert txs[j] in kept;
        var m :| 0 <= m < |kept| && kept[m] == txs[j];
        assert row[m] == c;
      }
    }
  }

  /** Every candidate of the sweep comes from a positively scoring pair. */
  lemma {:induction false} CandidatesSound(invs: seq<Invoice>, txs: seq<BankTransaction>, c: Candidate)
    requires c in Candidates(invs, txs)
    ensures exists i, j :: 0 <= i < |invs| && 0 <= j < |txs| && ScoreMatch(invs[i], txs[j]) > 0
                           && c == CandidateOf(invs[i], txs[j])
  {
    var init, last := invs[..|invs| - 1], invs[|invs| - 1];
    if c in Candidates(init, txs) {
      CandidatesSound(init, txs, c);
      var i, j :| 0 <= i < |init| && 0 <= j < |txs| && ScoreMatch(init[i], txs[j]) > 0
                  && c == CandidateOf(init[i], txs[j]);
      assert invs[i] == init[i];
    } else {
      RowCandidatesExact(last, txs);
      var j :| 0 <= j < |txs| && ScoreMatch(last, txs[j]) > 0 && c == CandidateOf(last, txs[j]);
      assert invs[|invs| - 1] == last;
    }
  }

  /** Every positively scoring pair of the sweep yields a candidate. */
  lemma {:induction false} CandidatesComplete(invs: seq<Invoice>, txs: seq<BankTransaction>, i: nat, j: nat)
    requires i < |invs| && j < |txs| && ScoreMatch(invs[i], txs[j]) > 0
    ensures CandidateOf(invs[i], txs[j]) in Candidates(invs, txs)
  {
    var init, last := invs[..|invs| - 1], invs[|invs| - 1];
    if i < |init| {
      assert init[i] == invs[i];
      CandidatesComplete(init, txs, i, j);
    } else {
      RowCandidatesExact(last, txs);
    }
  }

  lemma MulSucc(n: nat, m: nat)
    ensures (n + 1) * m == n * m + m
  {
  }

  /** A sweep produces no more candidates than there are (invoice, transaction) pairs. */
  lemma {:induction false} CandidatesCount(invs: seq<Invoice>, txs: seq<BankTransaction>)
    ensures |Candidates(invs, txs)| <= |invs| * |txs|
  {
    if invs != [] {
      var init, last := invs[..|invs| - 1], invs[|invs| - 1];
      CandidatesCount(init, txs);
      assert |Candidates(invs, txs)| == |Candidates(init, txs)| + |RowCandidates(last, txs)|;
      MulSucc(|init|, |txs|);
    }
  }

  /** The match rows a sweep creates: one `proposed` match per candidate, in
      candidate order, owned by the tenant, with consecutive fresh ids. */
  function ProposedMatches(cands: seq<Candidate>, tenantId: Id, firstId: Id, now: Timestamp): (ms: seq<Match>)
    ensures |ms| == |cands|
  {
    seq(|cands|, k requires 0 <= k < |cands| =>
      NewMatch(firstId + k, tenantId, cands[k].invoiceId, cands[k].transactionId, cands[k].score, now))
  }

  /** The k-th proposed match carries the k-th candidate and the k-th fresh id. */
  lemma ProposedMatchesAt(cands: seq<Candidate>, tenantId: Id, firstId: Id, now: Timestamp, k: nat)
    requires k < |cands|
    ensures k < |ProposedMatches(cands, tenantId, firstId, now)|
    ensures ProposedMatches(cands, tenantId, firstId, now)[k]
         == NewMatch(firstId + k, tenantId, cands[k].invoiceId, cands[k].transactionId, cands[k].score, now)
  {
  }

  lemma ProposedMatchesSnoc(cands: seq<Candidate>, c: Candidate, tenantId: Id, firstId: Id, now: Timestamp)
    ensures ProposedMatches(cands + [c], tenantId, firstId, now)
         == ProposedMatches(cands, tenantId, firstId, now)
            + [NewMatch(firstId + |cands|, tenantId, c.invoiceId, c.transactionId, c.score, now)]
  {
  }

  /** Sweeping two runs of candidates one after the other numbers the second
      run from where the first stopped. */
  lemma ProposedMatchesConcat(a: seq<Candidate>, b: seq<Candidate>, tenantId: Id, firstId: Id, now: Timestamp)
    ensures ProposedMatches(a + b, tenantId, firstId, now)
         == ProposedMatches(a, tenantId, firstId, now) + ProposedMatches(b, tenantId, firstId + |a|, now)
  {
    var whole := ProposedMatches(a + b, tenantId, firstId, now);
    var parts := ProposedMatches(a, tenantId, firstId, now) + ProposedMatches(b, tenantId, firstId + |a|, now);
    forall k | 0 <= k < |whole| ensures whole[k] == parts[k] {
      if k >= |a| {
        assert (a + b)[k] == b[k - |a|];
      }
    }
  }

  /** What a sweep's candidates carry: a positive score of at most 80 and the
      id of one of the swept transactions. */
  lemma CandidatesFromSweep(invs: seq<Invoice>, txs: seq<BankTransaction>, c: Candidate)
    requires c in Candidates(invs, txs)
    ensures 0 < c.score <= 80
    ensures exists j :: 0 <= j < |txs| && txs[j].id == c.transactionId
  {
    CandidatesSound(invs, txs, c);
  }
}
