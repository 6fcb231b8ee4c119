# firefly-iii-fints: transaction classification and import run

This project models the core of `firefly-iii-fints`, a batch job. The job fetches
recent transactions from bank accounts over FinTS (as MT940 records) and creates
matching transactions in a Firefly III ledger. The model covers three parts:

- **Account directory** (`directory.dfy`). The map from IBAN to Firefly asset-account
  id, built from the ledger's account listing. The last listed account wins for a
  repeated IBAN. A missing IBAN (`None`) is itself a key. An empty id counts as no
  match, because the importer tests the lookup for truthiness.
- **Classifier** (`classifier.dfy`). `Convert` turns one bank transaction into a
  Firefly record:
  - the amount is the absolute value of the bank amount;
  - the description falls back from the deviating applicant to the purpose;
  - a credit (`"C"`) is a deposit or a transfer into the owning account;
  - a debit (`"D"`) is a withdrawal or a transfer out of it;
  - any other status mark gives a record with no type and no endpoints.
  `Summarize` is the one-line log summary. Its counterparty falls back to the
  applicant name instead of the purpose.
- **Import run** (`submission.dfy`, `sync.dfy`). `Interpret` maps the ledger's reply
  to an outcome: Accepted(id), Rejected(first error detail) on HTTP 422, or Failed.
  `ImportTransactions` is the importer's nested loop, written as a method. It is
  proved equal to the specification function `Run`. Lemmas relate `Run` to
  `Expected`, which is every fetched transaction of every matched bank account,
  converted, in order.

Amounts are integers in minor units. The bank, the ledger and their replies are
parameters:
- the ledger's account listing is a `Result`;
- the bank's account listing is a `Result`, and its transaction fetch is a
  function of account and date window that returns a `Result`;
- the ledger's reply is a function of the records this run already sent and the
  record being sent. Server-side duplicate detection is therefore within what
  the model allows.

Python truthiness is modelled explicitly. `Fints.Or` is Python's `a or b` on
optional strings: `None` and `""` are both false.

Three behaviours of the code are modelled as they are, not tidied up:
- A transaction without a counterparty IBAN can still be a transfer. The
  directory is keyed by the ledger accounts' IBANs as listed (main.py:55), so an
  account without an IBAN puts `None` in as a key. The lookup of the
  transaction's `None` IBAN (main.py:27, 36) then finds that account
  (`Classifier.AbsentIbanCanResolve`).
- When both name fields are missing, the counterparty name is `None`, not an
  empty string (main.py:31-32, 40-41).
- A 422 reply whose error list is empty makes `[0]` raise inside the exception
  handler (main.py:91). The exception ends the whole run, which the model records
  as a `crashed` run that stops right after that submission. A failing bank
  account listing (main.py:77) or transaction fetch (main.py:84) raises outside
  any handler and ends the run the same way.

## Model

| member | source | states |
|---|---|---|
| `Fints.Or` | main.py:22 | Python `a or b`: `a` when it is a non-empty string, else `b`; the result is truthy iff either operand is |
| `Fints.Abs` | main.py:20 | the record amount is a non-negative value equal to the bank amount or its negation |
| `Directory.Build` | main.py:55 | the directory's keys are exactly the IBANs (including `None`) of the listed accounts, and each key maps to the id of the last listed account with that IBAN |
| `Directory.Lookup` | main.py:27 | `dict.get` on the directory: nothing exactly when the IBAN is not a key, otherwise the id stored under it |
| `Directory.Resolve` | main.py:27 | a lookup counts as a match exactly when the key is present with a non-empty id, and then yields that id |
| `Directory.LookupIsLastListed` | main.py:55 | a lookup finds nothing iff no listed account has the IBAN, and otherwise returns the id of the last one that does |
| `Directory.ResolveIsLastListed` | main.py:55 | resolution succeeds iff the last listed account with the IBAN has a non-empty id, and returns that id |
| `Classifier.Summarize` | main.py:14-15 | the log summary keeps the signed amount and date; its counterparty is the deviating applicant when non-empty, else the applicant name |
| `Classifier.Convert` | main.py:18-43 | amount = abs(bank amount); description = deviating applicant when non-empty, else purpose; for C/D exactly one of id/name on each side, and transfer iff the counterparty IBAN resolves; any other status sets no type and no endpoint |
| `Classifier.CreditShape` | main.py:25-33 | a credit always has the owning account as destination id; resolved gives transfer with the resolved source id, unresolved gives deposit with the counterparty name as source name |
| `Classifier.DebitShape` | main.py:34-42 | a debit always has the owning account as source id; resolved gives transfer with the resolved destination id, unresolved gives withdrawal with the counterparty name as destination name |
| `Classifier.SignIsIgnored` | main.py:20 | negating the bank amount leaves the whole record unchanged: direction comes from the status mark alone |
| `Classifier.TransferIffListed` | main.py:25-42 | with the directory built from a listing, a C/D record is a transfer iff the last listed account with the counterparty IBAN has a non-empty id, and that id is the record's counterparty id |
| `Classifier.AbsentIbanCanResolve` | main.py:27 | a C/D transaction with no counterparty IBAN is a transfer when the last listed IBAN-less ledger account has a non-empty id |
| `Submission.Interpret` | main.py:86-94 | success gives Accepted(id); a 422 gives Rejected(first detail), or no outcome (the run ends) when there is no detail; any other error gives Failed(cause) |
| `Sync.SubmitOne` | main.py:85-94 | one transaction's record is sent exactly once; the run stops iff the reply cannot be interpreted, and otherwise exactly one log line is added after the old log |
| `Sync.ProcessTransactions` | main.py:84-94 | the inner loop over an account's fetched transactions, in fetch order; a run that has stopped stays stopped |
| `Sync.ProcessAccount` | main.py:80-85 | a bank account without a ledger match sends nothing and adds one 'no ledger account' line; a matched account whose fetch raises sends nothing and ends the run |
| `Sync.ProcessAccounts` | main.py:80 | the outer loop over the bank accounts, in listing order; a run that has stopped stays stopped |
| `Sync.Run` | main.py:53-94 | a failed ledger listing gives no submission and a single error line; a failed bank listing gives no submission and ends the run; records are sent only when both listings succeed |
| `Sync.ImportTransactions` | main.py:53-94 | the nested account/transaction loop produces exactly the submitted records, log and crash flag of the specification `Run` |
| `Sync.ConvertAllAt` | main.py:84-85 | the k-th record owed for an account is the conversion of its k-th fetched transaction |
| `Sync.TransactionsSubmitPrefix` | main.py:84-87 | within an account the run sends a prefix of the account's converted transactions, in fetch order, and only appends to its log |
| `Sync.TransactionsSubmitAll` | main.py:84-94 | unless the run crashes, it sends every converted transaction of the account and adds one log line per transaction |
| `Sync.TransactionsLogged` | main.py:84-94 | unless the run crashes, the k-th new log line reports the k-th transaction's summary with the outcome its reply maps to, the reply depending on the records sent before it |
| `Sync.TransactionsStopOnlyOnUninterpretable` | main.py:89-94 | the run stops inside an account only right after a record whose reply is a 422 without error detail; accepted, rejected and failed outcomes never stop it |
| `Sync.AccountSubmitPrefix` | main.py:80-85 | for one bank account the run sends a prefix of the records owed for it; none when the account has no match or its fetch fails |
| `Sync.AccountSubmitAll` | main.py:80-85 | for one bank account, unless the run crashes there (failed fetch or uninterpretable reply), it sends all the records owed for it |
| `Sync.AccountsSubmitPrefix` | main.py:80-94 | over the bank accounts the run sends a prefix of the records owed, account by account, in listing order |
| `Sync.AccountsSubmitAll` | main.py:80-94 | over the bank accounts, unless the run crashes, it sends exactly the records owed |
| `Sync.RunSubmitsExpected` | main.py:53-94 | a run's submissions are a prefix of the owed records, and equal them when no exception ended the run |
| `Sync.TransactionsContinue` | main.py:86-94 | when every reply is interpretable, processing an account's transactions never stops early |
| `Sync.AccountsStopOnlyOnException` | main.py:80-94 | the run stops while processing the bank accounts only when the fetch of an account with a ledger match fails or the record sent last got a 422 reply without error detail |
| `Sync.AccountsContinue` | main.py:80-94 | when the fetch of every matched account succeeds (unmatched accounts are never fetched) and every reply is interpretable, processing the bank accounts never stops early |
| `Sync.RunSubmitsAll` | main.py:80-94 | when the fetch of every matched account succeeds and every reply is interpretable, the run never stops early and submits every owed record exactly once, in order |
| `Sync.UnmatchedAccountSkipped` | main.py:80-83 | a bank account without a ledger match contributes no record: dropping it from the bank's listing leaves the owed records unchanged |

## Left out

- The Firefly III client (configuration, `ApiClient`, `list_account`, `store_transaction`) is foreign HTTP code. The model takes the listing as a `Result` and the store call as a reply function.
- The FinTS client (PIN/TAN bootstrap, `get_sepa_accounts`, `get_transactions`) is a network protocol with terminal input. The bank's account list and transaction fetch are parameters that may fail. The connection setup and TAN exchange (main.py:61-74) are not modelled, and neither is an exception they raise.
- Environment variables, `.env` loading, argument parsing and logging setup are configuration I/O and are not modelled.
- `date.today()` and the `timedelta` window: the date window is a parameter.
- `json.loads(e.body)["errors"][...]["detail"]`: the 422 reply carries its detail strings already parsed. A malformed body is not modelled.
- `str(Decimal)` rendering and the currency of the amount: amounts are integers in minor units.
- The text of log lines and their severities: a log entry records which fields are chosen (summary and outcome). The error-level line for a Failed outcome prints only the cause, while the model's entry also carries the summary.
- A transaction record without an `applicant_iban` key (a `KeyError` in the code) is not modelled. The model assumes the bank always supplies the key, possibly with `None`.
- Duplicate detection itself (accepting a record once and rejecting it the second time) happens inside the ledger. The model allows any reply function of the run's earlier submissions, but proves nothing about a particular ledger.
