/** The account directory: a map from IBAN to ledger (Firefly III) account id,
    built once from the ledger's asset-account listing and only read afterwards. */
module Directory {
  import opened Wrappers

  /** A ledger asset account: its opaque id and its IBAN, which may be missing. */
  datatype LedgerAccount = LedgerAccount(id: string, iban: Option<string>)

  /** Keys are IBANs as the listing gives them, so `None` is a key too. */
  type Directory = map<Option<string>, string>

  /** `i` is the last position of the listing whose IBAN is `key`. */
  ghost predicate LastWith(accounts: seq<LedgerAccount>, key: Option<string>, i: int) {
    && 0 <= i < |accounts|
    && accounts[i].iban == key
    && forall j :: i < j < |accounts| ==> accounts[j].iban != key
  }

  /** The dictionary comprehension over the listing: entries are inserted in
      listing order, so a later account with the same IBAN overwrites an
      earlier one. */
  function Build(accounts: seq<LedgerAccount>): (d: Directory)
    ensures forall key :: key in d <==> exists i :: 0 <= i < |accounts| && accounts[i].iban == key
    ensures forall key, i :: LastWith(accounts, key, i) ==> key in d && d[key] == accounts[i].id
  {
    if accounts == [] then map[]
    else
      var init := accounts[..|accounts| - 1];
      var last := accounts[|accounts| - 1];
      assert forall i :: 0 <= i < |init| ==> init[i] == accounts[i];
      assert forall key, i :: LastWith(accounts, key, i) && key != last.iban ==> LastWith(init, key, i);
      Build(init)[last.iban := last.id]
  }

  /** `dict.get`: the id stored under `key`, or `None` for a missing key
      (never an error). */
  function Lookup(d: Directory, key: Option<string>): (r: Option<string>)
    ensures r.None? <==> key !in d
    ensures r.Some? ==> r.value == d[key]
  {
    if key in d then Some(d[key]) else None
  }

  /** A lookup as the importer tests it (`if x := accounts.get(key)`): an
      empty id is falsy and so counts as no match. */
  function Resolve(d: Directory, key: Option<string>): (r: Option<string>)
    ensures r.Some? <==> key in d && d[key] != ""
    ensures r.Some? ==> r.value != "" && Lookup(d, key) == r
  {
    if key in d && d[key] != "" then Some(d[key]) else None
  }

  /** A lookup in the built directory yields the id of the last listed
      account with that IBAN, and nothing for an IBAN nobody has. */
  lemma LookupIsLastListed(accounts: seq<LedgerAccount>, key: Option<string>)
    ensures Lookup(Build(accounts), key).None? <==> forall i :: 0 <= i < |accounts| ==> accounts[i].iban != key
    ensures forall i :: LastWith(accounts, key, i) ==> Lookup(Build(accounts), key) == Some(accounts[i].id)
  {
  }

  /** Resolution succeeds exactly when the last listed account with that IBAN
      has a non-empty id, and then yields that id. */
  lemma {:induction false} ResolveIsLastListed(accounts: seq<LedgerAccount>, key: Option<string>)
    ensures Resolve(Build(accounts), key).Some? <==>
              exists i :: LastWith(accounts, key, i) && accounts[i].id != ""
    ensures forall i :: LastWith(accounts, key, i) && accounts[i].id != "" ==>
              Resolve(Build(accounts), key) == Some(accounts[i].id)
  {
    var d := Build(accounts);
    if key in d {
      var i := LastIndex(accounts, key);
      assert LastWith(accounts, key, i);
      forall k | LastWith(accounts, key, k) ensures k == i { }
    }
  }

  /** Some account in the listing carries `key`, so a last one exists. */
  lemma {:induction false} LastIndexExists(accounts: seq<LedgerAccount>, key: Option<string>, k: int)
    requires 0 <= k < |accounts| && accounts[k].iban == key
    ensures exists i :: LastWith(accounts, key, i)
    decreases |accounts| - k
  {
    if forall j :: k < j < |accounts| ==> accounts[j].iban != key {
      assert LastWith(accounts, key, k);
    } else {
      var j :| k < j < |accounts| && accounts[j].iban == key;
      LastIndexExists(accounts, key, j);
    }
  }

  ghost function LastIndex(accounts: seq<LedgerAccount>, key: Option<string>): (i: int)
    requires exists k :: 0 <= k < |accounts| && accounts[k].iban == key
    ensures LastWith(accounts, key, i)
  {
    var k :| 0 <= k < |accounts| && accounts[k].iban == key;
    LastIndexExists(accounts, key, k);
    var i :| LastWith(accounts, key, i);
    i
  }
}
