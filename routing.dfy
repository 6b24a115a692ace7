/** The routing tables of the ledger: which table a balance-type key writes,
    which aggregate function totals it, and which tag the row stores. */
module Routing {
  import opened LedgerTypes

  const UserTabcoinKey := "user:tabcoin"
  const UserTabcashKey := "user:tabcash"
  const AdBudgetKey := "ad:budget"
  const ContentCreditKey := "content:tabcoin:credit"
  const ContentDebitKey := "content:tabcoin:debit"
  const ContentInitialKey := "content:tabcoin:initial"

  /** Keys with this prefix are written without a `balance_type` column. */
  const UserPrefix := "user:"

  predicate StartsWith(s: string, prefix: string) {
    |prefix| <= |s| && s[..|prefix|] == prefix
  }

  /** The explicit entries of the table map; every other key takes the default. */
  const TableNameMap: map<string, Table> :=
    map[UserTabcoinKey := UserTabcoin, UserTabcashKey := UserTabcash, AdBudgetKey := AdTabcash]

  const DefaultTable := ContentTabcoin

  const SqlFunctionMap: map<string, BalanceFunction> :=
    map[UserTabcoinKey := GetUserCurrentTabcoins,
        UserTabcashKey := GetUserCurrentTabcash,
        AdBudgetKey := GetAdCurrentTabcash]

  const DefaultFunction := GetContentCurrentTabcoins

  /** Short tags stored for the keys that have one; other tagged keys store themselves. */
  const BalanceTypeMap: map<string, string> :=
    map[ContentCreditKey := "credit",
        ContentDebitKey := "debit",
        ContentInitialKey := "initial",
        AdBudgetKey := "budget"]

  function TableFor(key: string): Table {
    if key in TableNameMap then TableNameMap[key] else DefaultTable
  }

  function BalanceFunctionFor(key: string): BalanceFunction {
    if key in SqlFunctionMap then SqlFunctionMap[key] else DefaultFunction
  }

  predicate HasTagColumn(key: string) {
    !StartsWith(key, UserPrefix)
  }

  /** The `balance_type` value an insert under `key` stores, if any. */
  function StoredTag(key: string): Option<string> {
    if HasTagColumn(key) then
      Some(if key in BalanceTypeMap then BalanceTypeMap[key] else key)
    else
      None
  }

  /** The table each aggregate function sums. The SQL bodies are outside the
      model; this pairing is an assumption read off the functions' names. */
  function SummedTable(f: BalanceFunction): Table {
    match f
    case GetUserCurrentTabcoins => UserTabcoin
    case GetUserCurrentTabcash => UserTabcash
    case GetAdCurrentTabcash => AdTabcash
    case GetContentCurrentTabcoins => ContentTabcoin
  }

  /** Each of the three named keys has its own table; every other key,
      known content key or not, falls back to the content table. */
  lemma TableRouting(key: string)
    ensures TableFor(key) == UserTabcoin <==> key == UserTabcoinKey
    ensures TableFor(key) == UserTabcash <==> key == UserTabcashKey
    ensures TableFor(key) == AdTabcash <==> key == AdBudgetKey
    ensures TableFor(key) == ContentTabcoin <==>
              key != UserTabcoinKey && key != UserTabcashKey && key != AdBudgetKey
  {
  }

  /** The aggregate returned with a write always totals the table written. */
  lemma BalanceFunctionMatchesTable(key: string)
    ensures SummedTable(BalanceFunctionFor(key)) == TableFor(key)
    ensures BalanceFunctionFor(key) == GetContentCurrentTabcoins <==> TableFor(key) == ContentTabcoin
  {
  }

  /** A tag is stored exactly for keys outside the `user:` namespace; it is the
      short form for the four mapped keys and the raw key otherwise. */
  lemma StoredTagCases(key: string)
    ensures StoredTag(key).None? <==> StartsWith(key, UserPrefix)
    ensures key == ContentCreditKey ==> StoredTag(key) == Some("credit")
    ensures key == ContentDebitKey ==> StoredTag(key) == Some("debit")
    ensures key == ContentInitialKey ==> StoredTag(key) == Some("initial")
    ensures key == AdBudgetKey ==> StoredTag(key) == Some("budget")
    ensures !StartsWith(key, UserPrefix) && key !in BalanceTypeMap ==> StoredTag(key) == Some(key)
  {
    if key in BalanceTypeMap {
      assert key[0] != 'u';
      assert !StartsWith(key, UserPrefix);
    }
  }

  /** Rows of the two user tables never carry a tag, rows of the ad table
      always carry "budget", and content rows carry one unless the key is an
      unknown `user:` key. */
  lemma TagMatchesTable(key: string)
    ensures TableFor(key) == UserTabcoin || TableFor(key) == UserTabcash ==> StoredTag(key) == None
    ensures TableFor(key) == AdTabcash ==> StoredTag(key) == Some("budget")
    ensures TableFor(key) == ContentTabcoin ==> (StoredTag(key).None? <==> StartsWith(key, UserPrefix))
  {
    if key == UserTabcoinKey {
      assert key[..5] == UserPrefix;
    } else if key == UserTabcashKey {
      assert key[..5] == UserPrefix;
    } else if key == AdBudgetKey {
      assert key[0] != 'u';
    }
  }

  /** The fallback also takes unknown `user:` keys: such a write lands in the
      content table with no tag at all. */
  lemma UnknownUserKeyFallsBackUntagged(key: string)
    requires StartsWith(key, UserPrefix)
    requires key != UserTabcoinKey && key != UserTabcashKey
    ensures TableFor(key) == ContentTabcoin
    ensures StoredTag(key) == None
  {
    assert key[0] == 'u' != AdBudgetKey[0];
  }
}
