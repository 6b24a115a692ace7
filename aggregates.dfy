/** Balances derived from the operation history. The aggregate SQL functions
    (`get_user_current_tabcoins`, `get_content_balance_credit_debit`, ...) are
    outside the model; they are modelled as sums of `amount` over a
    recipient's rows, split by tag for the content subtotals. */
module Aggregates {
  import opened LedgerTypes
  import opened Routing

  /** Which rows of a recipient a sum takes in. */
  datatype Selector =
    | AllTags              // the total
    | Tagged(tag: string)  // one subtotal
    | OtherTags            // rows tagged neither "credit" nor "debit", or untagged

  predicate Selected(row: Operation, id: Id, sel: Selector) {
    row.recipientId == id &&
    match sel
    case AllTags => true
    case Tagged(t) => row.tag == Some(t)
    case OtherTags => row.tag != Some("credit") && row.tag != Some("debit")
  }

  /** What one row adds to a sum. */
  function Contribution(row: Operation, id: Id, sel: Selector): int {
    if Selected(row, id, sel) then row.amount else 0
  }

  function Sum(rows: seq<Operation>, id: Id, sel: Selector): int {
    if rows == [] then 0 else Contribution(rows[0], id, sel) + Sum(rows[1..], id, sel)
  }

  /** `get_content_balance_credit_debit`: the total takes in every row,
      including the "initial" ones; credit and debit take in only their tag. */
  function ContentBalanceOf(rows: seq<Operation>, id: Id): ContentBalance {
    ContentBalance(Sum(rows, id, AllTags), Sum(rows, id, Tagged("credit")), Sum(rows, id, Tagged("debit")))
  }

  /** The value of a named aggregate function for a recipient. */
  function Evaluate(f: BalanceFunction, s: Store, id: Id): int {
    Sum(s.Rows(SummedTable(f)), id, AllTags)
  }

  lemma {:induction false} SumConcat(a: seq<Operation>, b: seq<Operation>, id: Id, sel: Selector)
    ensures Sum(a + b, id, sel) == Sum(a, id, sel) + Sum(b, id, sel)
    decreases |a|
  {
    if a == [] {
      assert a + b == b;
    } else {
      assert (a + b)[1..] == a[1..] + b;
      SumConcat(a[1..], b, id, sel);
    }
  }

  /** Appending a row changes a sum by exactly that row's contribution. */
  lemma SumAppend(rows: seq<Operation>, row: Operation, id: Id, sel: Selector)
    ensures Sum(rows + [row], id, sel) == Sum(rows, id, sel) + Contribution(row, id, sel)
  {
    SumConcat(rows, [row], id, sel);
  }

  /** A sum is the sum without row `i` plus that row's contribution. */
  lemma SumRemove(rows: seq<Operation>, i: nat, id: Id, sel: Selector)
    requires i < |rows|
    ensures Sum(rows, id, sel) == Sum(rows[..i] + rows[i + 1..], id, sel) + Contribution(rows[i], id, sel)
  {
    assert rows == rows[..i] + ([rows[i]] + rows[i + 1..]);
    SumConcat(rows[..i], [rows[i]] + rows[i + 1..], id, sel);
    SumConcat([rows[i]], rows[i + 1..], id, sel);
    SumConcat(rows[..i], rows[i + 1..], id, sel);
  }

  /** A balance does not depend on the order the rows were written in. */
  lemma {:induction false} SumOrderIndependent(a: seq<Operation>, b: seq<Operation>, id: Id, sel: Selector)
    requires multiset(a) == multiset(b)
    ensures Sum(a, id, sel) == Sum(b, id, sel)
    decreases |a|
  {
    if a == [] {
      assert |b| == |multiset(b)| == 0;
    } else {
      assert a[0] in multiset(b);
      var j :| 0 <= j < |b| && b[j] == a[0];
      var rest := b[..j] + b[j + 1..];
      MultisetWithout(b, j);
      MultisetWithout(a, 0);
      assert a[..0] + a[1..] == a[1..];
      assert multiset(a[1..]) == multiset(rest);
      SumOrderIndependent(a[1..], rest, id, sel);
      SumRemove(b, j, id, sel);
      assert Sum(a, id, sel) == Contribution(a[0], id, sel) + Sum(a[1..], id, sel);
    }
  }

  lemma MultisetWithout<T>(s: seq<T>, i: nat)
    requires i < |s|
    ensures multiset(s[..i] + s[i + 1..]) == multiset(s) - multiset{s[i]}
  {
    assert s == s[..i] + [s[i]] + s[i + 1..];
  }

  /** The content total is its credit subtotal, its debit subtotal and the
      rows with any other tag ("initial" among them). */
  lemma {:induction false} TotalSplitsByTag(rows: seq<Operation>, id: Id)
    ensures Sum(rows, id, AllTags)
         == Sum(rows, id, Tagged("credit")) + Sum(rows, id, Tagged("debit")) + Sum(rows, id, OtherTags)
  {
    if rows != [] {
      TotalSplitsByTag(rows[1..], id);
    }
  }

  /** With only credit and debit rows the total is credit plus debit. */
  lemma {:induction false} TotalIsCreditPlusDebit(rows: seq<Operation>, id: Id)
    requires forall k :: 0 <= k < |rows| ==> rows[k].tag == Some("credit") || rows[k].tag == Some("debit")
    ensures ContentBalanceOf(rows, id).total == ContentBalanceOf(rows, id).credit + ContentBalanceOf(rows, id).debit
  {
    TotalSplitsByTag(rows, id);
    OtherTagsEmpty(rows, id);
  }

  lemma {:induction false} OtherTagsEmpty(rows: seq<Operation>, id: Id)
    requires forall k :: 0 <= k < |rows| ==> rows[k].tag == Some("credit") || rows[k].tag == Some("debit")
    ensures Sum(rows, id, OtherTags) == 0
  {
    if rows != [] {
      OtherTagsEmpty(rows[1..], id);
    }
  }
}
