/** `findAllByOriginatorId`: every operation an originator caused, from the
    user tabcoin, user tabcash and content tabcoin tables, with each row's tag
    rewritten into a full balance-type label. */
module Provenance {
  import opened LedgerTypes
  import opened Routing

  /** A single originator id, or the array form matched with `= ANY($1)`. */
  datatype OriginatorFilter = Single(id: Id) | AnyOf(ids: seq<Id>)

  predicate Matches(q: OriginatorFilter, originatorId: Id) {
    match q
    case Single(x) => originatorId == x
    case AnyOf(xs) => originatorId in xs
  }

  const ContentLabelPrefix := "content:tabcoin:"

  /** The label the query gives a row of table `t`. Content rows get
      CONCAT('content:tabcoin:', balance_type), and CONCAT drops a NULL
      argument, so an untagged content row is labelled with the bare prefix.
      The ad table is never queried; its case is not used. */
  function LabelFor(t: Table, tag: Option<string>): string {
    match t
    case UserTabcoin => UserTabcoinKey
    case UserTabcash => UserTabcashKey
    case ContentTabcoin => ContentLabelPrefix + (if tag.Some? then tag.value else "")
    case AdTabcash => AdBudgetKey
  }

  function Labelled(t: Table, row: Operation): LabelledOperation {
    LabelledOperation(row.recipientId, row.amount, row.originatorType, row.originatorId, LabelFor(t, row.tag))
  }

  /** The matching rows of one table, labelled, in table order. */
  function Select(rows: seq<Operation>, t: Table, q: OriginatorFilter): (r: seq<LabelledOperation>)
    ensures |r| <= |rows|
    ensures forall x :: x in r ==>
              exists i :: 0 <= i < |rows| && Matches(q, rows[i].originatorId) && x == Labelled(t, rows[i])
    ensures forall i :: 0 <= i < |rows| && Matches(q, rows[i].originatorId) ==> Labelled(t, rows[i]) in r
  {
    if rows == [] then []
    else
      var rest := Select(rows[1..], t, q);
      assert forall i :: 1 <= i < |rows| ==> rows[i] == rows[1..][i - 1];
      (if Matches(q, rows[0].originatorId) then [Labelled(t, rows[0])] else []) + rest
  }

  /** The UNION ALL of the three queried tables. */
  function FindAll(s: Store, q: OriginatorFilter): seq<LabelledOperation> {
    Select(s.userTabcoin, UserTabcoin, q)
      + Select(s.userTabcash, UserTabcash, q)
      + Select(s.contentTabcoin, ContentTabcoin, q)
  }

  /** A returned row is a labelled row of one of the three queried tables whose
      originator matches, and every such row is returned. */
  lemma FindAllExact(s: Store, q: OriginatorFilter, x: LabelledOperation)
    ensures x in FindAll(s, q) <==>
              exists t, i :: t != AdTabcash && 0 <= i < |s.Rows(t)|
                          && Matches(q, s.Rows(t)[i].originatorId) && x == Labelled(t, s.Rows(t)[i])
  {
    if x in FindAll(s, q) {
      var t: Table;
      if x in Select(s.userTabcoin, UserTabcoin, q) {
        t := UserTabcoin;
      } else if x in Select(s.userTabcash, UserTabcash, q) {
        t := UserTabcash;
      } else {
        t := ContentTabcoin;
      }
      var i :| 0 <= i < |s.Rows(t)| && Matches(q, s.Rows(t)[i].originatorId) && x == Labelled(t, s.Rows(t)[i]);
    }
  }

  /** Every label the query produces is one of the two user keys or a
      `content:tabcoin:` label: ad budget rows never appear. */
  lemma FindAllLabels(s: Store, q: OriginatorFilter)
    ensures forall x :: x in FindAll(s, q) ==>
              x.balanceType == UserTabcoinKey || x.balanceType == UserTabcashKey
              || StartsWith(x.balanceType, ContentLabelPrefix)
  {
  }

  /** Writing to the ad table never changes what the query returns. */
  lemma FindAllIgnoresAdTable(s: Store, row: Operation, q: OriginatorFilter)
    ensures FindAll(s.Append(AdTabcash, row), q) == FindAll(s, q)
  {
  }

  /** Appending a row to a table appends its label to that table's selection
      exactly when its originator matches. */
  lemma {:induction false} SelectAppend(rows: seq<Operation>, row: Operation, t: Table, q: OriginatorFilter)
    ensures Select(rows + [row], t, q)
         == Select(rows, t, q) + (if Matches(q, row.originatorId) then [Labelled(t, row)] else [])
    decreases |rows|
  {
    if rows == [] {
      assert [row][1..] == [];
    } else {
      assert (rows + [row])[1..] == rows[1..] + [row];
      SelectAppend(rows[1..], row, t, q);
    }
  }

  /** The tag round trip: a content label parses back, through `create`'s
      routing, to the content table, and to the same tag exactly for the three
      tags that have a key of their own. */
  lemma ContentLabelRoundTrip(tag: string)
    ensures TableFor(ContentLabelPrefix + tag) == ContentTabcoin
    ensures HasTagColumn(ContentLabelPrefix + tag)
    ensures StoredTag(ContentLabelPrefix + tag) == Some(tag) <==> tag in {"credit", "debit", "initial"}
  {
    var key := ContentLabelPrefix + tag;
    assert key[0] == 'c';
    assert key[..|ContentLabelPrefix|] == ContentLabelPrefix;
    assert !StartsWith(key, UserPrefix);
    if tag == "credit" {
      assert key == ContentCreditKey;
    } else if tag == "debit" {
      assert key == ContentDebitKey;
    } else if tag == "initial" {
      assert key == ContentInitialKey;
    } else if key in BalanceTypeMap {
      assert key[|ContentLabelPrefix|..] == tag;
      assert key != AdBudgetKey;
    } else {
      assert |key| > |tag|;
    }
  }

  /** A row's tag is what `create` would store again from the row's label. */
  predicate RoundTrips(t: Table, tag: Option<string>) {
    match t
    case UserTabcoin => tag.None?
    case UserTabcash => tag.None?
    case ContentTabcoin => tag in {Some("credit"), Some("debit"), Some("initial")}
    case AdTabcash => false
  }

  /** Writing a queried row's label back through `create` reaches the table
      the row came from, and stores the row's own tag exactly when the tag
      round-trips. */
  lemma LabelRoundTrip(t: Table, tag: Option<string>)
    requires t != AdTabcash
    ensures TableFor(LabelFor(t, tag)) == t
    ensures StoredTag(LabelFor(t, tag)) == tag <==> RoundTrips(t, tag)
  {
    match t
    case UserTabcoin =>
      assert UserTabcoinKey[..5] == UserPrefix;
    case UserTabcash =>
      assert UserTabcashKey[..5] == UserPrefix;
    case ContentTabcoin =>
      var suffix := if tag.Some? then tag.value else "";
      ContentLabelRoundTrip(suffix);
  }
}
