/** The heuristic score of an (invoice, bank transaction) pair: three
    independent bands (amount, date proximity, description containment),
    summed. */
module Reconciliation {
  import opened Outcomes
  import opened Strings
  import opened Models

  /** Microseconds in one day. */
  const MicrosPerDay: int := 86_400_000_000

  function AbsReal(x: real): real {
    if x < 0.0 then -x else x
  }

  function AbsInt(x: int): nat {
    if x < 0 then -x else x
  }

  /** `timedelta.days` of a duration in microseconds: the number of whole days,
      rounded towards negative infinity. */
  function Days(delta: int): (d: int)
    ensures d * MicrosPerDay <= delta < d * MicrosPerDay + MicrosPerDay
  {
    delta / MicrosPerDay
  }

  /** Python truthiness of an optional string: present and non-empty. */
  predicate Truthy(s: Option<string>) {
    s.Some? && s.value != ""
  }

  /** Exact amounts give 50; a non-zero difference of at most 5 gives 20. */
  function AmountBand(invoiceAmount: real, txAmount: real): (r: int)
    ensures r == 50 <==> invoiceAmount == txAmount
    ensures r == 20 <==> invoiceAmount != txAmount && -5.0 <= invoiceAmount - txAmount <= 5.0
    ensures r == 0 <==> invoiceAmount - txAmount < -5.0 || invoiceAmount - txAmount > 5.0
  {
    if invoiceAmount == txAmount then 50
    else if AbsReal(invoiceAmount - txAmount) <= 5.0 then 20
    else 0
  }

  /** Dates at most three whole days apart give 20; an absent date gives 0. */
  function DateBand(invoiceDate: Option<Timestamp>, postedAt: Option<Timestamp>): (r: int)
    ensures r == 0 || r == 20
    ensures invoiceDate.None? || postedAt.None? ==> r == 0
  {
    if invoiceDate.Some? && postedAt.Some? && AbsInt(Days(invoiceDate.value - postedAt.value)) <= 3 then 20
    else 0
  }

  /** A case-insensitive substring match of the descriptions gives 10. */
  function DescriptionBand(invoiceDescription: Option<string>, txDescription: Option<string>): (r: int)
    ensures r == 0 || r == 10
    // definitional: the meaning of the test rests on Lower, IsSubstring and
    // ScoreIgnoresOtherFieldsAndCase
    ensures r == 10 <==>
      Truthy(invoiceDescription) && Truthy(txDescription)
      && IsSubstring(Lower(invoiceDescription.value), Lower(txDescription.value))
  {
    if Truthy(invoiceDescription) && Truthy(txDescription)
       && IsSubstring(Lower(invoiceDescription.value), Lower(txDescription.value))
    then 10
    else 0
  }

  /** `score_match`: the sum of the three bands. */
  function ScoreMatch(inv: Invoice, tx: BankTransaction): (s: int)
    ensures s in {0, 10, 20, 30, 40, 50, 60, 70, 80}
    ensures 0 <= s <= 80
  {
    AmountBand(inv.amount, tx.amount)
    + DateBand(inv.invoiceDate, tx.postedAt)
    + DescriptionBand(inv.description, tx.description)
  }

  /** With both dates present, the date band applies exactly when the invoice
      date lies from three days before to strictly less than four days after
      the posting date: `timedelta.days` rounds down, so the window is not
      symmetric for offsets that are not whole days. */
  lemma DateWindow(invoiceDate: Timestamp, postedAt: Timestamp)
    ensures DateBand(Some(invoiceDate), Some(postedAt)) == 20
            <==> -3 * MicrosPerDay <= invoiceDate - postedAt < 4 * MicrosPerDay
  {
    var d := Days(invoiceDate - postedAt);
    if -3 <= d <= 3 {
      assert -3 * MicrosPerDay <= d * MicrosPerDay;
      assert d * MicrosPerDay + MicrosPerDay <= 4 * MicrosPerDay;
    } else if d < -3 {
      assert d * MicrosPerDay + MicrosPerDay <= -3 * MicrosPerDay;
    } else {
      assert 4 * MicrosPerDay <= d * MicrosPerDay;
    }
  }

  /** On whole-day offsets the window is the symmetric one, |days| <= 3. */
  lemma DateWindowWholeDays(invoiceDate: Timestamp, postedAt: Timestamp, days: int)
    requires invoiceDate - postedAt == days * MicrosPerDay
    ensures DateBand(Some(invoiceDate), Some(postedAt)) == 20 <==> -3 <= days <= 3
  {
    DateWindow(invoiceDate, postedAt);
  }

  /** Three and a half days after the posting date scores the date band;
      three and a half days before does not. */
  lemma DateWindowAsymmetric(postedAt: Timestamp)
    ensures DateBand(Some(postedAt + 7 * MicrosPerDay / 2), Some(postedAt)) == 20
    ensures DateBand(Some(postedAt - 7 * MicrosPerDay / 2), Some(postedAt)) == 0
  {
    DateWindow(postedAt + 7 * MicrosPerDay / 2, postedAt);
    DateWindow(postedAt - 7 * MicrosPerDay / 2, postedAt);
  }

  /** The score reads only amount, date and description of its two arguments,
      and lettercase in the descriptions does not matter. */
  lemma ScoreIgnoresOtherFieldsAndCase(inv: Invoice, tx: BankTransaction, inv': Invoice, tx': BankTransaction)
    requires inv.amount == inv'.amount && tx.amount == tx'.amount
    requires inv.invoiceDate == inv'.invoiceDate && tx.postedAt == tx'.postedAt
    requires inv.description.None? <==> inv'.description.None?
    requires inv.description.Some? ==> SameIgnoringCase(inv.description.value, inv'.description.value)
    requires tx.description.None? <==> tx'.description.None?
    requires tx.description.Some? ==> SameIgnoringCase(tx.description.value, tx'.description.value)
    ensures ScoreMatch(inv, tx) == ScoreMatch(inv', tx')
  {
    if inv.description.Some? {
      LowerOfSameIgnoringCase(inv.description.value, inv'.description.value);
    }
    if tx.description.Some? {
      LowerOfSameIgnoringCase(tx.description.value, tx'.description.value);
    }
  }

  /** An amount off by more than 5, no dates and no descriptions score 0. */
  lemma NoSignalScoresZero(inv: Invoice, tx: BankTransaction)
    requires AbsReal(inv.amount - tx.amount) > 5.0
    requires inv.invoiceDate.None? && tx.description.None?
    ensures ScoreMatch(inv, tx) == 0
  {
  }

  /** 2026-02-20T00:00:00 and 2026-02-21T00:00:00 as microseconds since the epoch. */
  const Feb20: Timestamp := 20504 * MicrosPerDay
  const Feb21: Timestamp := 20505 * MicrosPerDay

  /** The reconciliation scenario: exact amount, one day apart, and the
      invoice description inside the transaction's, scores 50 + 20 + 10. */
  lemma OfficeSuppliesScores80(tenantId: Id, now: Timestamp)
    ensures ScoreMatch(
      Invoice(1, tenantId, 100.0, "USD", Some(Feb20), Some("Office Supplies"), Open, now),
      BankTransaction(2, tenantId, Some("tx-200"), Some(Feb21), 100.0, "USD", Some("Office Supplies Payment"), now))
      == 80
  {
    var needle, hay := Lower("Office Supplies"), Lower("Office Supplies Payment");
    assert needle <= hay[0..];
    DateWindow(Feb20, Feb21);
  }
}
