/** The bank side: what the FinTS/MT940 client hands to the importer, and the
    Python truthiness rules the importer applies to its optional fields. */
module Fints {
  import opened Wrappers

  /** A calendar date, carried through unchanged. */
  datatype Date = Date(year: int, month: int, day: int)

  /** The closed date range `[start, end]` transactions are fetched for. */
  datatype Window = Window(start: Date, end: Date)

  /** A bank account as listed by the bank. `handle` stands for the account
      object the bank hands back, which the transaction fetch receives whole;
      the match against the ledger reads only its IBAN. */
  datatype BankAccount = BankAccount(handle: nat, iban: Option<string>)

  /** One MT940 transaction. The amount is signed and in minor units (cents).
      `status` is the raw credit/debit mark ("C", "D", or anything else);
      the optional fields are `None` when the bank does not supply them. */
  datatype BankTransaction = BankTransaction(
    amount: int,
    date: Date,
    status: string,
    applicantName: Option<string>,
    deviateApplicant: Option<string>,
    applicantIban: Option<string>,
    purpose: Option<string>)

  /** Python truthiness of an optional string: `None` and `""` are false. */
  predicate Truthy(s: Option<string>) {
    s.Some? && s.value != ""
  }

  /** Python's `a or b` on optional strings: `a` when it is truthy, else `b`. */
  function Or(a: Option<string>, b: Option<string>): (r: Option<string>)
    ensures Truthy(a) ==> r == a
    ensures !Truthy(a) ==> r == b
    ensures Truthy(r) <==> Truthy(a) || Truthy(b)
  {
    if Truthy(a) then a else b
  }

  /** The absolute value of a signed amount. */
  function Abs(x: int): (r: nat)
    ensures r == x || r == -x
  {
    if x < 0 then -x else x
  }
}
