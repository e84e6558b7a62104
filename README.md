# Multi-tenant invoice reconciliation — a Dafny model

This project models the service layer of a multi-tenant invoice reconciliation
back end. Tenants own invoices and imported bank transactions. A reconciliation
sweep scores every (invoice, transaction) pair of a tenant and records a
*proposed* match for each pair that scores above zero. A match can be confirmed
once, and confirming it marks its invoice *matched*. Bank imports are idempotent
under a caller-supplied key: replaying a key with the same batch returns the first
response, and reusing it with a different batch is a conflict.

Modules:

- `Outcomes`: the error kinds (NotFound, Validation, Conflict), their HTTP status
  codes, and `Result`/`Option`.
- `Seqs`: the query primitives the services use. `Filter` is `filter_by(...).all()`,
  `FirstIndex` is `.first()` and `Window` is `offset(skip).limit(limit)`.
- `Strings`: Python's `strip()` (the `str.isspace` characters), `lower()` and
  substring membership.
- `Models`: the records (tenants, invoices, bank transactions, matches, idempotency
  keys), their defaults, and the two uniqueness constraints.
- `Reconciliation`: the score function, with its amount, date and description bands.
- `Security`: `secure_prompt`, which strips `{` and `}` from every string value.
- `ServicesSpec`: the pure parts of the services. These are the tenant lookup,
  serialisation, the blank-key test, the constraint check, invoice listing and the
  candidate sweep.
- `Services`: a `Store` class whose `seq` fields are the database tables.
  - Each service operation is a method on the store.
  - `DeleteInvoice`, `ImportTransactions`, `Reconcile` and `ConfirmMatch` are proved equal to pure step functions over `Tables` (`DeleteStep`, `ImportStep`, `ReconcileStep`, `ConfirmStep`), whose own contracts state the outcomes.
  - `CreateTenant`, `CreateInvoice` and `ListInvoices` state their result and new state directly in their contracts.
  - Proved lemmas state that every operation keeps the table invariant `TablesValid`.
  - Proved lemmas state that every operation leaves every other tenant's partition unchanged (`Isolated`).
- `Scenarios`: lemmas about sequences of calls (replay, conflict, double confirm,
  double reconcile), plus the flows of the repository's tests, expressed as calls on the store.

The database session is modelled through the store's state:
- A request that fails leaves the state exactly as it was. This follows the rollback in `get_db` (app/database.py:18-27) and the explicit rollback of the import.
- A request that succeeds commits its changes.
- Row ids come from one counter, `nextId`, which stands in for `uuid4`. A rollback restores the counter too.
- The clock is a `now` parameter (integer microseconds).

On these points the model follows the code as written:
- **Validation order.** The import checks the tenant first, then the key, then the batch (app/services.py:81-87). So an unknown tenant with a blank key gives NotFound, not Validation.
- **No min ≤ max check in the service.** `list_invoices` does not check min ≤ max. The REST endpoint checks it before the call and answers 400 "min_amount cannot be greater than max_amount" (app/main.py:96-100); that check is in the HTTP layer, outside this model, so PassesFilters' "min above max admits none" case is not reachable over REST. The GraphQL caller passes only a status (app/graphql_schema.py:62). Python truthiness switches a filter off: an empty status, or an amount of 0, is ignored (app/services.py:53-60).
- **Dangling matches are allowed.** A match may outlive its invoice. Deleting an invoice does not delete its matches, and confirming such a match fails with "Invoice for match not found" (app/services.py:185-191). The match stays proposed because the request's changes are rolled back.

## Model

| member | source | states |
|---|---|---|
| Outcomes.StatusCode | app/services.py:83-120 | 404, 400 and 409 are exactly NotFound, Validation and Conflict |
| Seqs.Filter | app/services.py:140-141 | the filtered rows are table rows satisfying the predicate, and every table row satisfying it is kept |
| Seqs.FilterConcat | app/services.py:140-141 | filtering distributes over appending rows |
| Seqs.FirstIndex | app/services.py:68-71 | `.first()`: the index found satisfies the predicate and no earlier one does; None exactly when no row does |
| Seqs.FirstIndexStable | app/services.py:172-175 | changing a row without changing whether it matches does not change which row `.first()` finds |
| Seqs.Window | app/services.py:62 | `offset(skip).limit(limit)`: empty past the end, else min(limit, remaining) rows, each the row at skip + i |
| Strings.IsSpace | app/services.py:83 | `str.isspace()` on one character: exactly the code points `strip()` removes by default |
| Strings.SliceAt | app/services.py:83 | `s[i:i + len(r)] == r`, with the slice inside `s` |
| Strings.Strip | app/services.py:83 | `strip()`: a slice of the input, no longer than it, with only whitespace cut off either side, and neither end of the result is whitespace |
| Strings.TrimLeft | app/services.py:83 | removes exactly the leading whitespace: a suffix of the input, whose first character is not a space |
| Strings.TrimRight | app/services.py:83 | removes exactly the trailing whitespace: a prefix of the input, whose last character is not a space |
| Strings.StripEmptyIffAllSpace | app/services.py:83 | `strip()` is empty exactly when every character is whitespace |
| Strings.LowerChar | app/reconciliation.py:14 | upper-case ASCII letters map to their lower-case letter, everything else is unchanged, and the result is never upper-case |
| Strings.Lower | app/reconciliation.py:14 | same length, lowered character by character |
| Strings.LowerOfSameIgnoringCase | app/reconciliation.py:14 | strings that differ only in ASCII case lower to the same string |
| Strings.IsSubstring | app/reconciliation.py:14 | Python's `in` on strings: true exactly when the needle occurs at some position of the haystack; the empty needle and any prefix occur |
| Models.Fingerprint | app/services.py:89-95 | the payload hash of a batch, taken to be collision-free, so two batches share a fingerprint exactly when they are equal |
| Models.ExternalIdsUnique | app/models.py:41-43 | uq_tenant_external: no two transactions of one tenant share a non-null external id |
| Models.KeysUnique | app/models.py:65-67 | uq_tenant_key: no two idempotency records of one tenant share a key |
| Models.NewInvoice | app/models.py:14-23 | a created invoice carries the input fields, the tenant, the fresh id, the creation time and status "open" |
| Models.NewTransaction | app/models.py:30-39 | a created bank transaction carries the input fields, the tenant, the fresh id and the creation time |
| Models.NewMatch | app/models.py:46-54 | a created match carries the pair, the score, the tenant, the fresh id, the creation time and status "proposed" |
| Reconciliation.Days | app/reconciliation.py:10 | `timedelta.days` rounds down: d days ≤ delta < d + 1 days |
| Reconciliation.Truthy | app/reconciliation.py:9-13 | Python truthiness of an optional string: present and non-empty |
| Reconciliation.AmountBand | app/reconciliation.py:4-7 | 50 exactly when the amounts are equal, 20 exactly when they are unequal and within 5, 0 exactly when they are further apart |
| Reconciliation.DateBand | app/reconciliation.py:9-11 | 0 or 20, and 0 when either date is missing |
| Reconciliation.DescriptionBand | app/reconciliation.py:13-15 | 10 exactly when both descriptions are present and non-empty and the lowered invoice description occurs in the lowered transaction description, else 0 |
| Reconciliation.ScoreMatch | app/reconciliation.py:1-17 | the score is one of 0, 10, …, 80 |
| Reconciliation.DateWindow | app/reconciliation.py:9-11 | the date band scores exactly when −3 days ≤ invoice date − posting date < 4 days |
| Reconciliation.DateWindowWholeDays | app/reconciliation.py:9-11 | on whole-day offsets the band scores exactly when the offset is within 3 days either way |
| Reconciliation.DateWindowAsymmetric | app/reconciliation.py:10 | an invoice 3.5 days after the posting scores the date band and one 3.5 days before does not |
| Reconciliation.ScoreIgnoresOtherFieldsAndCase | app/reconciliation.py:1-17 | the score depends only on the amounts, the dates and the descriptions up to case |
| Reconciliation.NoSignalScoresZero | app/reconciliation.py:1-17 | amounts more than 5 apart with no invoice date and no transaction description score 0 |
| Reconciliation.OfficeSuppliesScores80 | tests/test_reconciliation.py:1-48 | the test's invoice and transaction (same amount, one day apart, description contained) score 80 |
| Security.RemoveAll | app/security.py:5 | `replace(c, "")` leaves no `c` and keeps every other character's count |
| Security.StripBraces | app/security.py:5 | no braces remain, no longer than the input, and every other character's count is kept |
| Security.StripBracesIsSubsequence | app/security.py:5 | the stripped string is a subsequence of the input, so order is kept |
| Security.StripBracesNoBraces | app/security.py:5 | a string without braces is unchanged |
| Security.StripBracesIdempotent | app/security.py:5 | stripping twice is stripping once |
| Security.SanitizeValue | app/security.py:4-8 | the `isinstance(v, str)` branch: a string loses its braces, any other value is kept |
| Security.Sanitized | app/security.py:1-8 | the sanitised mapping has the same keys, and none of its string values contains a brace |
| Security.SanitizedShape | app/security.py:1-8 | same keys; string values are brace-stripped and other values are copied |
| Security.SanitizedIdempotent | app/security.py:1-8 | sanitising a sanitised mapping changes nothing |
| Security.SecurePrompt | app/security.py:1-8 | the loop builds exactly the sanitised mapping |
| ServicesSpec.TenantWithId | app/services.py:24 | the row selector `filter_by(id=tenant_id)` of the tenant lookup |
| ServicesSpec.InvoiceOf | app/services.py:68-71 | the row selector `filter_by(id=…, tenant_id=…)` of an invoice lookup, also used by confirm (app/services.py:185-188) |
| ServicesSpec.MatchOf | app/services.py:172-175 | the row selector `filter_by(id=match_id, tenant_id=…)` of the match lookup |
| ServicesSpec.RecordOf | app/services.py:97-100 | the row selector `filter_by(tenant_id=…, key=key)` of the idempotency lookup |
| ServicesSpec.InvoiceOwnedBy | app/services.py:140 | the tenant's invoices, `filter_by(tenant_id=…)` |
| ServicesSpec.TransactionOwnedBy | app/services.py:141 | the tenant's bank transactions, `filter_by(tenant_id=…)` |
| ServicesSpec.MatchOwnedBy | app/services.py:172-175 | a tenant's matches, the tenant half of the match lookup |
| ServicesSpec.RecordOwnedBy | app/services.py:97-100 | a tenant's idempotency records, the tenant half of the key lookup |
| ServicesSpec.GetTenant | app/services.py:23-27 | Ok with the tenant of that id when one exists, else NotFound "Tenant not found" |
| ServicesSpec.Serialize | app/services.py:10-20 | the serialised view reads back as the transaction it came from |
| ServicesSpec.Views | app/services.py:122 | one view per created row, in order, each reading back as its row |
| ServicesSpec.NewRows | app/services.py:107-111 | one row per batch entry, in batch order, owned by the tenant, with consecutive fresh ids |
| ServicesSpec.BlankKey | app/services.py:83 | the key is refused exactly when it is all whitespace (the empty key included) |
| ServicesSpec.ConstraintViolationIffCollision | app/models.py:41-43 | the table with the batch appended breaks uq_tenant_external exactly when the batch repeats one of its own (tenant, external id) pairs or one already stored |
| ServicesSpec.StatusFilterOn | app/services.py:53 | the status filter is switched on exactly when a non-empty status is given |
| ServicesSpec.MinAmountOn | app/services.py:56 | the minimum filter is switched on exactly when a non-zero minimum is given |
| ServicesSpec.MaxAmountOn | app/services.py:59 | the maximum filter is switched on exactly when a non-zero maximum is given |
| ServicesSpec.PassesFilters | app/services.py:53-60 | an invoice passes exactly when it meets every switched-on filter (status equal, amount at least the minimum, at most the maximum); with every filter off each invoice passes; a status other than "open" or "matched" admits none; min above max admits none |
| ServicesSpec.Listed | app/services.py:51-60 | the listing's WHERE clause: owned by the tenant (`filter_by(tenant_id=…)`) and passing the filters |
| ServicesSpec.InvoiceQuery | app/services.py:49-62 | of the tenant's invoices passing every active filter, in table order, the window starting at `skip`: empty past the end, else min(limit, remaining) of them, the i-th being the (skip + i)-th listed; each is a table row of the tenant passing the filters; with skip 0 and a limit of at least the number listed, every such invoice |
| ServicesSpec.CandidateOf | app/services.py:155-159 | the match fields of a pair: invoice id, transaction id and score |
| ServicesSpec.ScoresAgainst | app/services.py:153-154 | the `if s > 0` test of the inner loop |
| ServicesSpec.RowCandidates | app/services.py:152-162 | one invoice's inner loop yields no more candidates than transactions; RowCandidatesFiltered gives one candidate per scoring transaction, in order |
| ServicesSpec.Candidates | app/services.py:151-162 | the sweep's candidates, invoice-major and transaction-minor; its properties are the lemmas below |
| ServicesSpec.RowCandidatesFiltered | app/services.py:152-162 | one invoice's candidates are its pairs with exactly the transactions that score above zero, in transaction order, one per transaction |
| ServicesSpec.RowCandidatesExact | app/services.py:152-162 | one invoice's candidates are its pairs with the positively scoring transactions in order, and a candidate occurs exactly when it is such a pair |
| ServicesSpec.CandidatesSound | app/services.py:151-162 | every proposed pair scores above zero and comes from the tenant's invoices and transactions |
| ServicesSpec.CandidatesComplete | app/services.py:151-162 | every positively scoring pair is proposed |
| ServicesSpec.CandidatesCount | app/services.py:151-162 | the sweep proposes at most invoices × transactions pairs |
| ServicesSpec.CandidatesFromSweep | app/services.py:151-162 | a proposed pair scores in (0, 80] and names a transaction of the sweep |
| ServicesSpec.ProposedMatches | app/services.py:155-162 | one match per candidate |
| ServicesSpec.ProposedMatchesAt | app/services.py:155-162 | the k-th match is the proposed match of the k-th candidate, with id first + k |
| ServicesSpec.ProposedMatchesConcat | app/services.py:151-162 | the sweep's matches for two runs of candidates are the first run's followed by the second's, with ids continuing |
| Services.TablesValid | app/models.py:1-67 | the store invariant: unique ids below the counter, every row owned by a known tenant, matches naming a transaction of their tenant and scoring in (0, 80], records whose stored response holds one view of their tenant per batch entry, and both unique constraints; every *KeepsValid lemma states it |
| Services.PartitionOf | app/services.py:23-198 | the rows of one tenant in every table, each in table order |
| Services.Isolated | app/services.py:23-198 | a call on behalf of one tenant leaves every other tenant's partition unchanged |
| Services.AfterImport | app/services.py:107-131 | the tables after a fresh import: the batch's rows appended, then one idempotency record; its shape is AfterImportShape |
| Services.AfterImportShape | app/services.py:107-131 | a fresh import keeps tenants, invoices, matches and the old rows, appends exactly the batch's new rows (one per entry, owned by the tenant, with consecutive ids), then one record under (tenant, key) with the batch's fingerprint and one view per new row |
| Services.SweepOf | app/services.py:149-162 | the proposed matches of the tenant's candidates, numbered from the id counter; their properties are SweepMatchAt and SweepMatchesValid |
| Services.AfterConfirm | app/services.py:183-193 | match k becomes "confirmed" and invoice j "matched"; every other row and table is unchanged |
| Services.DeleteStep | app/services.py:65-77 | NotFound "Tenant not found" for an unknown tenant, else NotFound "Invoice not found for tenant"; success exactly when the tenant owns an invoice with that id, and then exactly that row is removed; a failure changes nothing |
| Services.ImportStep | app/services.py:80-134 | NotFound for an unknown tenant, then Validation for a blank key, then Validation for an empty batch; a used key replays its stored response for the same fingerprint and is Conflict "Idempotency conflict" otherwise, writing nothing; a fresh key is Conflict on a uq_tenant_external collision, else answers the new rows' views and commits AfterImport; a failure changes nothing |
| Services.ReconcileStep | app/services.py:137-166 | the three 404s in order (tenant, no invoices, no bank transactions); success exactly when none applies, returning SweepOf and appending exactly those matches; a failure changes nothing |
| Services.ConfirmStep | app/services.py:169-198 | NotFound for an unknown tenant or match, Conflict "Match is already confirmed", NotFound "Invoice for match not found"; on success the proposed match becomes confirmed and its invoice matched, every other row as it was; a failure changes nothing |
| Services.Store.constructor | app/database.py:1-27 | a new store is the empty, valid database with the id counter at 0 |
| Services.Store.CreateTenant | app/services.py:30-35 | appends a tenant with a fresh id, whose partition is empty, and keeps the tables valid |
| Services.Store.CreateInvoice | app/services.py:38-46 | NotFound for an unknown tenant, with nothing changed; else appends the new invoice; keeps the tables valid and other tenants untouched |
| Services.Store.ListInvoices | app/services.py:49-62 | NotFound for an unknown tenant, else exactly the invoice query |
| Services.Store.DeleteInvoice | app/services.py:65-77 | result and new state are those of DeleteStep; keeps the tables valid and other tenants untouched |
| Services.Store.ImportTransactions | app/services.py:80-134 | result and new state are those of ImportStep; keeps the tables valid and other tenants untouched |
| Services.Store.InsertBatch | app/services.py:107-134 | on a uq_tenant_external violation, Conflict and a full rollback, else the rows and the idempotency record are committed |
| Services.Store.AddRows | app/services.py:107-111 | the loop appends exactly the batch's new rows and advances the id counter by the batch size |
| Services.Store.Reconcile | app/services.py:137-166 | result and new state are those of ReconcileStep; keeps the tables valid and other tenants untouched |
| Services.Store.Sweep | app/services.py:151-162 | the nested loops append exactly the proposed matches of the tenant's candidates, in invoice-major order |
| Services.Store.SweepRow | app/services.py:152-162 | the inner loop appends exactly the proposed matches of one invoice's candidates |
| Services.Store.ConfirmMatch | app/services.py:169-198 | result and new state are those of ConfirmStep; keeps the tables valid and other tenants untouched |
| Services.AddTenantKeepsValid | app/services.py:30-35 | adding a tenant keeps every table invariant and gives the new tenant an empty partition |
| Services.AddInvoiceKeepsValid | app/services.py:38-46 | adding an invoice of a known tenant keeps the invariant and leaves other tenants' invoices unchanged |
| Services.RemoveInvoiceKeepsValid | app/services.py:76 | removing an invoice keeps the invariant and leaves other tenants' invoices unchanged |
| Services.DeleteKeepsValid | app/services.py:65-77 | a delete keeps the invariant and isolates the other tenants |
| Services.ImportKeepsValid | app/services.py:80-134 | an import keeps the invariant (unique ids, known owners, uq_tenant_external, uq_tenant_key) and isolates the other tenants |
| Services.ImportBatchKeepsValid | app/services.py:107-134 | a fresh import that passes the constraint check yields valid tables |
| Services.ImportRowsValid | app/services.py:107-120 | the appended rows keep ids unique and below the counter and keep uq_tenant_external |
| Services.ImportRecordValid | app/models.py:65-67 | the new idempotency record keeps uq_tenant_key, and its stored response is the tenant's views |
| Services.ImportIsolated | app/services.py:107-131 | a fresh import changes no other tenant's transactions or keys |
| Services.SweepKeepsValid | app/services.py:149-166 | the sweep's matches keep the invariant and isolate the other tenants |
| Services.SweepMatchesValid | app/services.py:155-162 | every match after the sweep has a fresh id, a known tenant, a transaction of that tenant and a score in (0, 80] |
| Services.SweepMatchAt | app/services.py:155-160 | the k-th new match has id counter + k, belongs to the tenant and scores in (0, 80] |
| Services.SweepIsolated | app/services.py:155-162 | the sweep changes no other tenant's matches |
| Services.ReconcileKeepsValid | app/services.py:137-166 | a reconcile keeps the invariant and isolates the other tenants |
| Services.ConfirmAtKeepsValid | app/services.py:183-193 | confirming a match and marking its invoice keeps the invariant and changes no other tenant's rows |
| Services.ConfirmKeepsValid | app/services.py:169-198 | a confirm keeps the invariant and isolates the other tenants |
| Services.SweepStep | app/services.py:151 | the matches for i + 1 invoices are those for i invoices followed by the next invoice's row, numbered on |
| Services.SweepRowStep | app/services.py:152-162 | the next transaction adds one proposed match with the next fresh id when it scores above zero, and nothing otherwise |
| Scenarios.ImportLeavesRecord | app/services.py:124-131 | after a successful import the key's record holds the batch's fingerprint and the response just given |
| Scenarios.FreshImportRecord | app/services.py:124-131 | after importing under an unused key, `.first()` finds the new record, which holds the batch's fingerprint and the new rows' views |
| Scenarios.ReplayReturnsFirstResponse | tests/test_bank_import.py:1-33 | replaying a successful import returns the same response and commits nothing |
| Scenarios.OtherPayloadConflicts | tests/test_bank_import.py:36-71 | the same key with a different batch is Conflict "Idempotency conflict" and commits nothing |
| Scenarios.ImportAnswersWholeBatch | tests/test_bank_import.py:20-25 | a successful import answers one view per batch entry, each owned by the tenant, whether inserted or replayed |
| Scenarios.ConfirmTwiceConflicts | tests/test_confirm_match.py:51-58 | a second confirm is Conflict "Match is already confirmed" and commits nothing |
| Scenarios.ReconcileTwiceDuplicates | app/services.py:149-166 | a second reconcile proposes the same pairs with the same scores again under new ids, so the matches table grows by twice the first result |
| Scenarios.StoreWithInvoice | tests/test_confirm_match.py:5-13 | the test set-up: a store holding one tenant and its one new invoice, and valid |
| Scenarios.ConfirmMatchFlowUntilProposed | tests/test_confirm_match.py:1-33 | tenant, invoice, import and reconcile give exactly one proposed match with score 80 |
| Scenarios.ConfirmMatchFlow | tests/test_confirm_match.py:36-48 | confirming that match returns it confirmed, and its invoice is then "matched" |
| Scenarios.ReconcileRequiresTransactions | tests/test_reconciliation.py:51-62 | reconciling a tenant with an invoice and no transactions is 404 "No bank transactions found for tenant" and creates no match |
| Scenarios.OrphanedMatchIsNotConfirmed | app/services.py:185-191 | after its invoice is deleted a match cannot be confirmed, and it stays proposed |
| Scenarios.SeedImport | tests/test_confirm_match.py:16-28 | the set-up's import of the one seeded transaction under key "confirm-seed" commits exactly the imported tables |
| Scenarios.SeedAfterImport | tests/test_confirm_match.py:16-28 | the tables after that fresh import are the seeded tenant and invoice plus the transaction and its record |
| Scenarios.SeedCandidates | tests/test_reconciliation.py:34-48 | the test invoice and transaction give exactly one candidate, scoring 80 |
| Scenarios.SeedSweep | tests/test_reconciliation.py:34-48 | reconciling the seeded tables returns one proposed match and stores it |
| Scenarios.SeedConfirm | tests/test_confirm_match.py:36-48 | confirming the seeded match confirms it and marks its invoice matched |
| Scenarios.SeedOrphan | app/services.py:185-191 | deleting the seeded invoice succeeds, and confirming its match then fails with NotFound and commits nothing |
| Scenarios.NoTransactionsNoReconcile | app/services.py:146-147 | with invoices but no transactions the reconcile step fails with that 404 and changes nothing |

## Left out

- The payload hash is not modelled: `Fingerprint` is the batch itself. Two different batches therefore never share a fingerprint; SHA-256 collisions and JSON canonicalisation (key sorting, ISO date text) are not represented.
- Strings.Lower, Strings.LowerChar and Strings.LowerOfSameIgnoringCase: lowering covers ASCII letters only. Python's Unicode case mapping is not modelled.
- `Security.SecurePrompt` works on a map, so the key order of the returned dict is not modelled.
- Concurrency is not modelled. When two first-time imports race under the same key, the database's uq_tenant_key constraint rejects the later commit with an IntegrityError that nothing in the service handles. The model runs one call at a time.
- Generated ids are a shared counter rather than `uuid4` strings, and the clock is the `now` parameter.
- Amounts are real numbers rather than IEEE floats. The `== tx.amount` comparison and the `<= 5` band are exact.
- The currency of an invoice and of an imported bank transaction is `Optional[str]` in the request schemas (app/schemas.py:35, app/schemas.py:66). The model treats it as a plain string in `InvoiceInput`, `TransactionInput` and `TransactionView`.
- ServicesSpec.InvoiceQuery and Services.Store.ListInvoices take `skip` and `limit` as free parameters. Every caller uses the defaults 0 and 20 (app/main.py:107, app/graphql_schema.py:62), so the endpoints never return more than 20 invoices; the model does not state that cap.
- Datetimes are integer microseconds. Time zones and ISO formatting are left out.
- The store returns rows in insertion order. SQL gives no ordering guarantee, so the model fixes one.
- Views keep the timestamps as numbers. `_serialize_bank_tx` formats them with `isoformat()`, and the JSON round trip of the stored response is taken as the identity.
- The HTTP and GraphQL layers (app/main.py, app/graphql_schema.py), request schemas (app/schemas.py) and the explanation generator (app/ai.py) are not part of this model.
- Session plumbing is not modelled: the engine, `SessionLocal`, `refresh` and `close`. Only the commit-or-rollback effect of `get_db` is kept.
- Services.ImportStep: for a replay, its own contract gives the stored response but not its length. The length is proved in Scenarios.ImportAnswersWholeBatch, because a replayed response matches the batch only when the stored records are valid.
- ServicesSpec.ProposedMatches: its own contract states only the length; the element-wise content is ServicesSpec.ProposedMatchesAt.
