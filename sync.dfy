/** One import run: build the directory, walk the bank accounts in listing
    order, and submit every fetched transaction of a matched account once,
    in fetch order, logging each outcome and carrying on after a bad one. */
module Sync {
  import opened Wrappers
  import opened Fints
  import opened Directory
  import opened Classifier
  import opened Submission

  /** A line of the run's log. */
  datatype LogEntry =
    | ListingFailed(cause: string)
    | NoLedgerAccount(iban: Option<string>)
    | Reported(summary: Summary, outcome: Outcome)

  /** Everything a run has done so far: the records sent to the ledger in
      order, the log, and whether an exception escaped and ended it. */
  datatype RunState = RunState(submitted: seq<LedgerRecord>, log: seq<LogEntry>, crashed: bool)

  /** The ledger's answer to `store_transaction`, as a function of the records
      this run sent before and the record now sent (the ledger's earlier
      contents are fixed for the run, so its duplicate check is captured). */
  type Ledger = (seq<LedgerRecord>, LedgerRecord) -> Reply

  /** The bank's transaction listing for an account and a date window, or
      the error it raised. */
  type Bank = (BankAccount, Window) -> Result<seq<BankTransaction>, string>

  /** Submitting one transaction of account `ownId`: its record is sent
      exactly once; the run then stops if the reply cannot be interpreted,
      and otherwise logs the transaction with the reply's outcome. */
  function SubmitOne(d: Directory, ownId: string, t: BankTransaction, ledger: Ledger, st: RunState): (r: RunState)
    ensures r.submitted == st.submitted + [Convert(t, d, ownId)]
    ensures r.crashed <==> st.crashed || !Interpretable(ledger(st.submitted, Convert(t, d, ownId)))
    ensures |st.log| <= |r.log| <= |st.log| + 1 && r.log[..|st.log|] == st.log
    ensures |r.log| == |st.log| + 1 <==> Interpretable(ledger(st.submitted, Convert(t, d, ownId)))
  {
    var record := Convert(t, d, ownId);
    var sent := st.(submitted := st.submitted + [record]);
    match Interpret(ledger(st.submitted, record))
    case None => sent.(crashed := true)
    case Some(outcome) => sent.(log := st.log + [Reported(Summarize(t), outcome)])
  }

  /** The inner loop, over an account's fetched transactions. */
  function ProcessTransactions(d: Directory, ownId: string, txns: seq<BankTransaction>, ledger: Ledger, st: RunState): (r: RunState)
    ensures st.crashed ==> r == st
    decreases |txns|
  {
    if txns == [] || st.crashed then st
    else ProcessTransactions(d, ownId, txns[1..], ledger, SubmitOne(d, ownId, txns[0], ledger, st))
  }

  /** One bank account: skipped with a log line when it has no ledger match;
      otherwise its transactions are fetched, and a fetch that raises ends
      the run (the call is outside any handler). */
  function ProcessAccount(d: Directory, account: BankAccount, bank: Bank, window: Window, ledger: Ledger, st: RunState): (r: RunState)
    ensures Resolve(d, account.iban).None? ==> r.submitted == st.submitted && r.crashed == st.crashed && r.log == st.log + [NoLedgerAccount(account.iban)]
    ensures Resolve(d, account.iban).Some? && bank(account, window).Failure? ==> r.submitted == st.submitted && r.crashed
  {
    match Resolve(d, account.iban)
    case None => st.(log := st.log + [NoLedgerAccount(account.iban)])
    case Some(ownId) =>
      match bank(account, window)
      case Failure(_) => st.(crashed := true)
      case Success(txns) => ProcessTransactions(d, ownId, txns, ledger, st)
  }

  /** The outer loop, over the bank accounts. */
  function ProcessAccounts(d: Directory, accounts: seq<BankAccount>, bank: Bank, window: Window, ledger: Ledger, st: RunState): (r: RunState)
    ensures st.crashed ==> r == st
    decreases |accounts|
  {
    if accounts == [] || st.crashed then st
    else ProcessAccounts(d, accounts[1..], bank, window, ledger, ProcessAccount(d, accounts[0], bank, window, ledger, st))
  }

  /** A whole run, from the ledger's account listing and the bank's account
      listing. A failed ledger listing is logged and ends the run normally; a
      failed bank listing raises and ends it before any submission. */
  function Run(listing: Result<seq<LedgerAccount>, string>, bankListing: Result<seq<BankAccount>, string>,
               bank: Bank, window: Window, ledger: Ledger): (r: RunState)
    ensures listing.Failure? ==> r == RunState([], [ListingFailed(listing.error)], false)
    ensures listing.Success? && bankListing.Failure? ==> r.submitted == [] && r.crashed
    ensures r.submitted != [] ==> listing.Success? && bankListing.Success?
  {
    match listing
    case Failure(cause) => RunState([], [ListingFailed(cause)], false)
    case Success(ledgerAccounts) =>
      match bankListing
      case Failure(_) => RunState([], [], true)
      case Success(accounts) => ProcessAccounts(Build(ledgerAccounts), accounts, bank, window, ledger, RunState([], [], false))
  }

  /** The importer's main loop. */
  method ImportTransactions(listing: Result<seq<LedgerAccount>, string>, bankListing: Result<seq<BankAccount>, string>,
                            bank: Bank, window: Window, ledger: Ledger)
    returns (submitted: seq<LedgerRecord>, log: seq<LogEntry>, crashed: bool)
    ensures RunState(submitted, log, crashed) == Run(listing, bankListing, bank, window, ledger)
  {
    submitted, log, crashed := [], [], false;
    if listing.Failure? {
      log := [ListingFailed(listing.error)];
      return;
    }
    var directory := Build(listing.value);
    if bankListing.Failure? {
      crashed := true;
      return;
    }
    var accounts := bankListing.value;
    var i := 0;
    while i < |accounts|
      invariant 0 <= i <= |accounts|
      invariant Run(listing, bankListing, bank, window, ledger) ==
                ProcessAccounts(directory, accounts[i..], bank, window, ledger, RunState(submitted, log, false))
    {
      var account := accounts[i];
      var own := Resolve(directory, account.iban);
      if own.None? {
        log := log + [NoLedgerAccount(account.iban)];
        i := i + 1;
        continue;
      }
      var ownId := own.value;
      var fetched := bank(account, window);
      if fetched.Failure? {
        crashed := true;
        return;
      }
      var txns := fetched.value;
      var j := 0;
      while j < |txns|
        invariant 0 <= j <= |txns|
        invariant Run(listing, bankListing, bank, window, ledger) ==
                  ProcessAccounts(directory, accounts[i + 1..], bank, window, ledger,
                    ProcessTransactions(directory, ownId, txns[j..], ledger, RunState(submitted, log, false)))
      {
        var record := Convert(txns[j], directory, ownId);
        var reply := ledger(submitted, record);
        submitted := submitted + [record];
        var outcome := Interpret(reply);
        if outcome.None? {
          crashed := true;
          return;
        }
        log := log + [Reported(Summarize(txns[j]), outcome.value)];
        j := j + 1;
      }
      i := i + 1;
    }
  }

  // ---------------------------------------------------------------------------
  // What a run submits, defined independently of the loops

  /** The records of an account's transactions, one per transaction, in
      fetch order. */
  function ConvertAll(d: Directory, ownId: string, txns: seq<BankTransaction>): (rs: seq<LedgerRecord>)
    ensures |rs| == |txns|
  {
    if txns == [] then [] else [Convert(txns[0], d, ownId)] + ConvertAll(d, ownId, txns[1..])
  }

  /** The `k`-th record owed for an account is the conversion of its `k`-th
      fetched transaction. */
  lemma {:induction false} ConvertAllAt(d: Directory, ownId: string, txns: seq<BankTransaction>, k: int)
    requires 0 <= k < |txns|
    ensures ConvertAll(d, ownId, txns)[k] == Convert(txns[k], d, ownId)
    decreases |txns|
  {
    if k > 0 {
      ConvertAllAt(d, ownId, txns[1..], k - 1);
    }
  }

  /** The records owed for one bank account: none when it has no match or
      its fetch fails. */
  function AccountRecords(d: Directory, account: BankAccount, bank: Bank, window: Window): seq<LedgerRecord> {
    match Resolve(d, account.iban)
    case None => []
    case Some(ownId) =>
      match bank(account, window)
      case Failure(_) => []
      case Success(txns) => ConvertAll(d, ownId, txns)
  }

  /** All records owed for the bank accounts, account by account. */
  function Expected(d: Directory, accounts: seq<BankAccount>, bank: Bank, window: Window): seq<LedgerRecord> {
    if accounts == [] then []
    else AccountRecords(d, accounts[0], bank, window) + Expected(d, accounts[1..], bank, window)
  }

  /** Within an account, the run sends a prefix of the account's records, in
      fetch order, and only adds to its log. */
  lemma {:induction false} TransactionsSubmitPrefix(d: Directory, ownId: string, txns: seq<BankTransaction>, ledger: Ledger, st: RunState)
    requires !st.crashed
    ensures var after := ProcessTransactions(d, ownId, txns, ledger, st);
            |st.submitted| <= |after.submitted| <= |st.submitted| + |txns| &&
            after.submitted == (st.submitted + ConvertAll(d, ownId, txns))[..|after.submitted|]
    ensures var after := ProcessTransactions(d, ownId, txns, ledger, st);
            |st.log| <= |after.log| && after.log[..|st.log|] == st.log
    decreases |txns|
  {
    if txns != [] {
      var next := SubmitOne(d, ownId, txns[0], ledger, st);
      var records := ConvertAll(d, ownId, txns);
      var rest := ConvertAll(d, ownId, txns[1..]);
      assert next.submitted == st.submitted + [records[0]];
      assert records == [records[0]] + rest;
      assert st.submitted + records == next.submitted + rest;
      assert |st.log| <= |next.log| && next.log[..|st.log|] == st.log;
      if !next.crashed {
        TransactionsSubmitPrefix(d, ownId, txns[1..], ledger, next);
      }
    }
  }

  /** Unless it crashes, the run sends all of an account's records and logs
      one line per transaction. */
  lemma {:induction false} TransactionsSubmitAll(d: Directory, ownId: string, txns: seq<BankTransaction>, ledger: Ledger, st: RunState)
    requires !st.crashed
    requires !ProcessTransactions(d, ownId, txns, ledger, st).crashed
    ensures ProcessTransactions(d, ownId, txns, ledger, st).submitted == st.submitted + ConvertAll(d, ownId, txns)
    ensures |ProcessTransactions(d, ownId, txns, ledger, st).log| == |st.log| + |txns|
    decreases |txns|
  {
    if txns != [] {
      var next := SubmitOne(d, ownId, txns[0], ledger, st);
      var records := ConvertAll(d, ownId, txns);
      var rest := ConvertAll(d, ownId, txns[1..]);
      assert records == [records[0]] + rest;
      assert st.submitted + records == next.submitted + rest;
      assert |next.log| == |st.log| + 1;
      TransactionsSubmitAll(d, ownId, txns[1..], ledger, next);
    }
  }

  /** A log line reports transaction `t` with the outcome `outcome`. */
  predicate Logged(entry: LogEntry, t: BankTransaction, outcome: Option<Outcome>) {
    entry.Reported? && entry.summary == Summarize(t) && Some(entry.outcome) == outcome
  }

  /** Unless it crashes, the run logs exactly one outcome per transaction, in
      fetch order: the one the ledger's reply to its record maps to, given
      the records sent before it. */
  lemma {:induction false} TransactionsLogged(d: Directory, ownId: string, txns: seq<BankTransaction>, ledger: Ledger, st: RunState, k: int)
    requires !st.crashed
    requires !ProcessTransactions(d, ownId, txns, ledger, st).crashed
    requires 0 <= k < |txns|
    ensures |st.log| + k < |ProcessTransactions(d, ownId, txns, ledger, st).log|
    ensures Logged(ProcessTransactions(d, ownId, txns, ledger, st).log[|st.log| + k], txns[k],
                   Interpret(ledger(st.submitted + ConvertAll(d, ownId, txns)[..k], Convert(txns[k], d, ownId))))
    decreases |txns|
  {
    var next := SubmitOne(d, ownId, txns[0], ledger, st);
    var records := ConvertAll(d, ownId, txns);
    var after := ProcessTransactions(d, ownId, txns, ledger, st);
    assert after == ProcessTransactions(d, ownId, txns[1..], ledger, next);
    TransactionsSubmitAll(d, ownId, txns, ledger, st);
    ConvertAllAt(d, ownId, txns, k);
    if k == 0 {
      TransactionsSubmitPrefix(d, ownId, txns[1..], ledger, next);
      assert st.submitted + records[..0] == st.submitted;
      assert after.log[|st.log|] == after.log[..|next.log|][|st.log|] == next.log[|st.log|];
    } else {
      TransactionsLogged(d, ownId, txns[1..], ledger, next, k - 1);
      var rest := ConvertAll(d, ownId, txns[1..]);
      assert records == [records[0]] + rest;
      assert next.submitted + rest[..k - 1] == st.submitted + records[..k];
      assert txns[1..][k - 1] == txns[k];
      assert |st.log| + k == |next.log| + (k - 1);
    }
  }

  /** Over the bank accounts, the run sends a prefix of the records owed,
      in order. */
  lemma {:induction false} AccountsSubmitPrefix(d: Directory, accounts: seq<BankAccount>, bank: Bank, window: Window, ledger: Ledger, st: RunState)
    requires !st.crashed
    ensures var after := ProcessAccounts(d, accounts, bank, window, ledger, st);
            |st.submitted| <= |after.submitted| <= |st.submitted| + |Expected(d, accounts, bank, window)| &&
            after.submitted == (st.submitted + Expected(d, accounts, bank, window))[..|after.submitted|]
    decreases |accounts|
  {
    if accounts != [] {
      var account := accounts[0];
      var next := ProcessAccount(d, account, bank, window, ledger, st);
      var mine := AccountRecords(d, account, bank, window);
      var rest := Expected(d, accounts[1..], bank, window);
      assert st.submitted + Expected(d, accounts, bank, window) == (st.submitted + mine) + rest;
      AccountSubmitPrefix(d, account, bank, window, ledger, st);
      if next.crashed {
        assert next.submitted == ((st.submitted + mine) + rest)[..|next.submitted|];
      } else {
        AccountSubmitAll(d, account, bank, window, ledger, st);
        AccountsSubmitPrefix(d, accounts[1..], bank, window, ledger, next);
      }
    }
  }

  /** Unless it crashes, the run sends every record owed. */
  lemma {:induction false} AccountsSubmitAll(d: Directory, accounts: seq<BankAccount>, bank: Bank, window: Window, ledger: Ledger, st: RunState)
    requires !st.crashed
    requires !ProcessAccounts(d, accounts, bank, window, ledger, st).crashed
    ensures ProcessAccounts(d, accounts, bank, window, ledger, st).submitted == st.submitted + Expected(d, accounts, bank, window)
    decreases |accounts|
  {
    if accounts != [] {
      var account := accounts[0];
      var next := ProcessAccount(d, account, bank, window, ledger, st);
      var mine := AccountRecords(d, account, bank, window);
      var rest := Expected(d, accounts[1..], bank, window);
      assert st.submitted + Expected(d, accounts, bank, window) == (st.submitted + mine) + rest;
      AccountSubmitAll(d, account, bank, window, ledger, st);
      AccountsSubmitAll(d, accounts[1..], bank, window, ledger, next);
    }
  }

  /** One bank account: the run sends a prefix of its records. */
  lemma AccountSubmitPrefix(d: Directory, account: BankAccount, bank: Bank, window: Window, ledger: Ledger, st: RunState)
    requires !st.crashed
    ensures var after := ProcessAccount(d, account, bank, window, ledger, st);
            |st.submitted| <= |after.submitted| <= |st.submitted| + |AccountRecords(d, account, bank, window)| &&
            after.submitted == (st.submitted + AccountRecords(d, account, bank, window))[..|after.submitted|]
  {
    match Resolve(d, account.iban)
    case None =>
    case Some(ownId) =>
      if bank(account, window).Success? {
        TransactionsSubmitPrefix(d, ownId, bank(account, window).value, ledger, st);
      }
  }

  /** One bank account: unless the run crashes there, it sends all of its
      records. */
  lemma AccountSubmitAll(d: Directory, account: BankAccount, bank: Bank, window: Window, ledger: Ledger, st: RunState)
    requires !st.crashed
    requires !ProcessAccount(d, account, bank, window, ledger, st).crashed
    ensures ProcessAccount(d, account, bank, window, ledger, st).submitted == st.submitted + AccountRecords(d, account, bank, window)
  {
    match Resolve(d, account.iban)
    case None =>
    case Some(ownId) =>
      if bank(account, window).Success? {
        TransactionsSubmitAll(d, ownId, bank(account, window).value, ledger, st);
      }
  }

  /** A run sends the owed records in order, each at most once, and all of
      them exactly once unless an exception ended it. */
  lemma RunSubmitsExpected(ledgerAccounts: seq<LedgerAccount>, accounts: seq<BankAccount>, bank: Bank, window: Window, ledger: Ledger)
    ensures var run := Run(Success(ledgerAccounts), Success(accounts), bank, window, ledger);
            var owed := Expected(Build(ledgerAccounts), accounts, bank, window);
            run.submitted <= owed && (!run.crashed ==> run.submitted == owed)
  {
    var d := Build(ledgerAccounts);
    var start := RunState([], [], false);
    AccountsSubmitPrefix(d, accounts, bank, window, ledger, start);
    if !ProcessAccounts(d, accounts, bank, window, ledger, start).crashed {
      AccountsSubmitAll(d, accounts, bank, window, ledger, start);
    }
  }

  /** The run stops inside an account only right after sending a record
      whose reply it could not interpret (a 422 without an error detail);
      accepted, rejected and failed outcomes never stop it. */
  lemma {:induction false} TransactionsStopOnlyOnUninterpretable(d: Directory, ownId: string, txns: seq<BankTransaction>, ledger: Ledger, st: RunState)
    requires !st.crashed
    ensures var after := ProcessTransactions(d, ownId, txns, ledger, st);
            after.crashed ==>
              |after.submitted| > |st.submitted| &&
              !Interpretable(ledger(after.submitted[..|after.submitted| - 1], after.submitted[|after.submitted| - 1]))
    decreases |txns|
  {
    if txns != [] {
      var next := SubmitOne(d, ownId, txns[0], ledger, st);
      if !next.crashed {
        TransactionsStopOnlyOnUninterpretable(d, ownId, txns[1..], ledger, next);
      } else {
        assert next.submitted[..|next.submitted| - 1] == st.submitted;
      }
    }
  }

  /** No outcome the importer can interpret stops it: a rejected or failed
      submission is followed by the next transaction. */
  lemma {:induction false} TransactionsContinue(d: Directory, ownId: string, txns: seq<BankTransaction>, ledger: Ledger, st: RunState)
    requires !st.crashed
    requires forall sent, record :: Interpretable(ledger(sent, record))
    ensures !ProcessTransactions(d, ownId, txns, ledger, st).crashed
    decreases |txns|
  {
    if txns != [] {
      TransactionsContinue(d, ownId, txns[1..], ledger, SubmitOne(d, ownId, txns[0], ledger, st));
    }
  }

  /** The run stops while processing the bank accounts only on one of the
      two exceptions: the fetch of an account with a ledger match fails, or
      the record sent last got a 422 reply without error detail. */
  lemma {:induction false} AccountsStopOnlyOnException(d: Directory, accounts: seq<BankAccount>, bank: Bank, window: Window, ledger: Ledger, st: RunState)
    requires !st.crashed
    ensures var after := ProcessAccounts(d, accounts, bank, window, ledger, st);
            after.crashed ==>
              (exists i :: 0 <= i < |accounts| && Resolve(d, accounts[i].iban).Some? && bank(accounts[i], window).Failure?) ||
              (|after.submitted| > |st.submitted| &&
               !Interpretable(ledger(after.submitted[..|after.submitted| - 1], after.submitted[|after.submitted| - 1])))
    decreases |accounts|
  {
    if accounts != [] {
      var account := accounts[0];
      var next := ProcessAccount(d, account, bank, window, ledger, st);
      AccountSubmitPrefix(d, account, bank, window, ledger, st);
      if next.crashed {
        match Resolve(d, account.iban)
        case None =>
        case Some(ownId) =>
          if bank(account, window).Success? {
            TransactionsStopOnlyOnUninterpretable(d, ownId, bank(account, window).value, ledger, st);
          }
      } else {
        AccountsStopOnlyOnException(d, accounts[1..], bank, window, ledger, next);
        var after := ProcessAccounts(d, accounts[1..], bank, window, ledger, next);
        if after.crashed && !(|after.submitted| > |next.submitted| &&
            !Interpretable(ledger(after.submitted[..|after.submitted| - 1], after.submitted[|after.submitted| - 1])))
        {
          var i :| 0 <= i < |accounts[1..]| && Resolve(d, accounts[1..][i].iban).Some? && bank(accounts[1..][i], window).Failure?;
          assert accounts[1..][i] == accounts[i + 1];
        }
      }
    }
  }

  /** Every fetch the run makes succeeds: that of each bank account with a
      ledger match. An unmatched account is skipped before its fetch. */
  predicate FetchesSucceed(d: Directory, accounts: seq<BankAccount>, bank: Bank, window: Window) {
    forall i :: 0 <= i < |accounts| && Resolve(d, accounts[i].iban).Some? ==> bank(accounts[i], window).Success?
  }

  /** When every fetch succeeds and every reply is interpretable, processing
      the bank accounts never stops early. */
  lemma {:induction false} AccountsContinue(d: Directory, accounts: seq<BankAccount>, bank: Bank, window: Window, ledger: Ledger, st: RunState)
    requires !st.crashed
    requires FetchesSucceed(d, accounts, bank, window)
    requires forall sent, record :: Interpretable(ledger(sent, record))
    ensures !ProcessAccounts(d, accounts, bank, window, ledger, st).crashed
    decreases |accounts|
  {
    if accounts != [] {
      var account := accounts[0];
      if Resolve(d, account.iban).Some? {
        assert bank(accounts[0], window).Success?;
        TransactionsContinue(d, Resolve(d, account.iban).value, bank(account, window).value, ledger, st);
      }
      assert FetchesSucceed(d, accounts[1..], bank, window) by {
        forall i | 0 <= i < |accounts| - 1 && Resolve(d, accounts[1..][i].iban).Some?
          ensures bank(accounts[1..][i], window).Success?
        {
          assert accounts[1..][i] == accounts[i + 1];
        }
      }
      AccountsContinue(d, accounts[1..], bank, window, ledger, ProcessAccount(d, account, bank, window, ledger, st));
    }
  }

  /** As long as the bank's fetches of matched accounts succeed and every 422 reply carries an
      error detail, the run submits every owed record exactly once, whatever
      mix of accepted, rejected and failed outcomes the ledger answers with. */
  lemma RunSubmitsAll(ledgerAccounts: seq<LedgerAccount>, accounts: seq<BankAccount>, bank: Bank, window: Window, ledger: Ledger)
    requires FetchesSucceed(Build(ledgerAccounts), accounts, bank, window)
    requires forall sent, record :: Interpretable(ledger(sent, record))
    ensures !Run(Success(ledgerAccounts), Success(accounts), bank, window, ledger).crashed
    ensures Run(Success(ledgerAccounts), Success(accounts), bank, window, ledger).submitted ==
            Expected(Build(ledgerAccounts), accounts, bank, window)
  {
    AccountsContinue(Build(ledgerAccounts), accounts, bank, window, ledger, RunState([], [], false));
    RunSubmitsExpected(ledgerAccounts, accounts, bank, window, ledger);
  }

  /** The owed records of a concatenation of account listings. */
  lemma {:induction false} ExpectedAppend(d: Directory, xs: seq<BankAccount>, ys: seq<BankAccount>, bank: Bank, window: Window)
    ensures Expected(d, xs + ys, bank, window) == Expected(d, xs, bank, window) + Expected(d, ys, bank, window)
    decreases |xs|
  {
    if xs != [] {
      assert (xs + ys)[1..] == xs[1..] + ys;
      ExpectedAppend(d, xs[1..], ys, bank, window);
    } else {
      assert xs + ys == ys;
    }
  }

  /** A bank account without a ledger match contributes no record: removing
      it from the bank's listing changes nothing that is owed. */
  lemma UnmatchedAccountSkipped(d: Directory, accounts: seq<BankAccount>, k: int, bank: Bank, window: Window)
    requires 0 <= k < |accounts| && Resolve(d, accounts[k].iban).None?
    ensures Expected(d, accounts, bank, window) == Expected(d, accounts[..k] + accounts[k + 1..], bank, window)
  {
    assert accounts == accounts[..k] + ([accounts[k]] + accounts[k + 1..]);
    ExpectedAppend(d, accounts[..k], [accounts[k]] + accounts[k + 1..], bank, window);
    ExpectedAppend(d, accounts[..k], accounts[k + 1..], bank, window);
  }
}
