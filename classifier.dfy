/** Turning one bank transaction into a Firefly III transaction record, and
    the one-line summary the importer logs for it. */
module Classifier {
  import opened Wrappers
  import opened Fints
  import opened Directory

  datatype TxType = Deposit | Withdrawal | Transfer

  /** Whether a key of the record dictionary is present. A present key may
      still hold `None` (the `*_name` fields and the description). */
  datatype Field<+T> = Unset | Set(value: T)

  /** The record sent to the ledger. `amount` is in minor units; rendering it
      as a decimal string is not modelled. */
  datatype LedgerRecord = LedgerRecord(
    amount: nat,
    date: Date,
    description: Option<string>,
    txType: Field<TxType>,
    sourceId: Field<string>,
    sourceName: Field<Option<string>>,
    destinationId: Field<string>,
    destinationName: Field<Option<string>>)

  /** What the log line of a transaction shows: the signed amount, a
      counterparty name and the date. */
  datatype Summary = Summary(amount: int, counterparty: Option<string>, date: Date)

  predicate IsCredit(t: BankTransaction) { t.status == "C" }
  predicate IsDebit(t: BankTransaction) { t.status == "D" }

  /** The counterparty name used both for an unresolved endpoint and in the
      log summary: the deviating applicant, else the applicant name. */
  function CounterpartyName(t: BankTransaction): Option<string> {
    Or(t.deviateApplicant, t.applicantName)
  }

  /** The record invariant for a credit or debit: exactly one of id/name on
      each side, and `transfer` exactly when the counterparty is given by id. */
  predicate WellShaped(r: LedgerRecord) {
    && (r.sourceId.Set? != r.sourceName.Set?)
    && (r.destinationId.Set? != r.destinationName.Set?)
    && r.txType.Set?
    && (r.txType.value == Transfer <==> r.sourceId.Set? && r.destinationId.Set?)
  }

  /** The log summary of a transaction. Its counterparty falls back to the
      applicant name, whereas the record's description falls back to the
      purpose. */
  function Summarize(t: BankTransaction): (s: Summary)
    ensures s.amount == t.amount && s.date == t.date
    ensures Truthy(t.deviateApplicant) ==> s.counterparty == t.deviateApplicant
    ensures !Truthy(t.deviateApplicant) ==> s.counterparty == t.applicantName
  {
    Summary(t.amount, CounterpartyName(t), t.date)
  }

  /** Classification of one transaction of the account `ownId`, with the
      directory used to recognise the counterparty as one of the user's own
      accounts. */
  function Convert(t: BankTransaction, d: Directory, ownId: string): (r: LedgerRecord)
    ensures r.amount == Abs(t.amount) && r.date == t.date
    ensures Truthy(t.deviateApplicant) ==> r.description == t.deviateApplicant
    ensures !Truthy(t.deviateApplicant) ==> r.description == t.purpose
    ensures IsCredit(t) || IsDebit(t) ==> WellShaped(r)
    ensures r.txType == Set(Transfer) <==> (IsCredit(t) || IsDebit(t)) && Resolve(d, t.applicantIban).Some?
    ensures !IsCredit(t) && !IsDebit(t) ==>
              r.txType.Unset? && r.sourceId.Unset? && r.sourceName.Unset? &&
              r.destinationId.Unset? && r.destinationName.Unset?
  {
    var base := LedgerRecord(Abs(t.amount), t.date, Or(t.deviateApplicant, t.purpose),
                             Unset, Unset, Unset, Unset, Unset);
    if IsCredit(t) then
      match Resolve(d, t.applicantIban)
      case Some(id) => base.(txType := Set(Transfer), sourceId := Set(id), destinationId := Set(ownId))
      case None => base.(txType := Set(Deposit), sourceName := Set(CounterpartyName(t)), destinationId := Set(ownId))
    else if IsDebit(t) then
      match Resolve(d, t.applicantIban)
      case Some(id) => base.(txType := Set(Transfer), sourceId := Set(ownId), destinationId := Set(id))
      case None => base.(txType := Set(Withdrawal), sourceId := Set(ownId), destinationName := Set(CounterpartyName(t)))
    else
      base
  }

  /** A credit always lands in the owning account; its source is the resolved
      account (a transfer) or the counterparty's name (a deposit). */
  lemma CreditShape(t: BankTransaction, d: Directory, ownId: string)
    requires IsCredit(t)
    ensures Convert(t, d, ownId).destinationId == Set(ownId)
    ensures Convert(t, d, ownId).destinationName.Unset?
    ensures Resolve(d, t.applicantIban).Some? ==>
              Convert(t, d, ownId).txType == Set(Transfer) &&
              Convert(t, d, ownId).sourceId == Set(Resolve(d, t.applicantIban).value) &&
              Convert(t, d, ownId).sourceName.Unset?
    ensures Resolve(d, t.applicantIban).None? ==>
              Convert(t, d, ownId).txType == Set(Deposit) &&
              Convert(t, d, ownId).sourceName == Set(CounterpartyName(t)) &&
              Convert(t, d, ownId).sourceId.Unset?
  {
  }

  /** A debit always leaves the owning account; its destination is the
      resolved account (a transfer) or the counterparty's name (a withdrawal). */
  lemma DebitShape(t: BankTransaction, d: Directory, ownId: string)
    requires IsDebit(t)
    ensures Convert(t, d, ownId).sourceId == Set(ownId)
    ensures Convert(t, d, ownId).sourceName.Unset?
    ensures Resolve(d, t.applicantIban).Some? ==>
              Convert(t, d, ownId).txType == Set(Transfer) &&
              Convert(t, d, ownId).destinationId == Set(Resolve(d, t.applicantIban).value) &&
              Convert(t, d, ownId).destinationName.Unset?
    ensures Resolve(d, t.applicantIban).None? ==>
              Convert(t, d, ownId).txType == Set(Withdrawal) &&
              Convert(t, d, ownId).destinationName == Set(CounterpartyName(t)) &&
              Convert(t, d, ownId).destinationId.Unset?
  {
  }

  /** Flipping the sign of the bank amount changes neither the record's
      amount nor anything else when the direction mark stays the same: the
      sign is carried by the direction alone. */
  lemma SignIsIgnored(t: BankTransaction, d: Directory, ownId: string)
    ensures Convert(t.(amount := -t.amount), d, ownId) == Convert(t, d, ownId)
  {
  }

  /** With a ledger directory built from the listing, a counterparty is
      recognised exactly when the last listed account with its IBAN has a
      non-empty id; then the record is a transfer involving that account. */
  lemma {:induction false} TransferIffListed(t: BankTransaction, accounts: seq<LedgerAccount>, ownId: string)
    requires IsCredit(t) || IsDebit(t)
    ensures Convert(t, Build(accounts), ownId).txType == Set(Transfer) <==>
              exists i :: LastWith(accounts, t.applicantIban, i) && accounts[i].id != ""
    ensures forall i :: LastWith(accounts, t.applicantIban, i) && accounts[i].id != "" ==>
              if IsCredit(t) then Convert(t, Build(accounts), ownId).sourceId == Set(accounts[i].id)
              else Convert(t, Build(accounts), ownId).destinationId == Set(accounts[i].id)
  {
    ResolveIsLastListed(accounts, t.applicantIban);
  }

  /** A transaction without a counterparty IBAN is still a transfer when the
      ledger lists an account without an IBAN (with a non-empty id) last
      among such accounts: the missing IBAN is itself a directory key. */
  lemma {:induction false} AbsentIbanCanResolve(t: BankTransaction, accounts: seq<LedgerAccount>, ownId: string, i: int)
    requires IsCredit(t) || IsDebit(t)
    requires t.applicantIban.None?
    requires LastWith(accounts, None, i) && accounts[i].id != ""
    ensures Convert(t, Build(accounts), ownId).txType == Set(Transfer)
  {
    ResolveIsLastListed(accounts, None);
  }
}
