/** The balance model itself: the four operation tables as append-only
    sequences, and the operations the module exports. Database access is
    replaced by reads and appends on these sequences. */
module BalanceModel {
  import opened LedgerTypes
  import opened Routing
  import opened Aggregates
  import opened Provenance
  import opened Operations

  class Ledger {
    var userTabcoin: seq<Operation>
    var userTabcash: seq<Operation>
    var contentTabcoin: seq<Operation>
    var adTabcash: seq<Operation>

    /** The contents of the tables as one value. */
    function State(): Store
      reads this
    {
      Store(userTabcoin, userTabcash, contentTabcoin, adTabcash)
    }

    constructor ()
      ensures State() == EmptyStore
    {
      userTabcoin, userTabcash, contentTabcoin, adTabcash := [], [], [], [];
    }

    /** One INSERT into table `t`. */
    method Insert(t: Table, row: Operation)
      modifies this
      ensures State() == old(State()).Append(t, row)
    {
      match t
      case UserTabcoin => userTabcoin := userTabcoin + [row];
      case UserTabcash => userTabcash := userTabcash + [row];
      case ContentTabcoin => contentTabcoin := contentTabcoin + [row];
      case AdTabcash => adTabcash := adTabcash + [row];
    }

    /** `create`: route the key, decide the tag column, insert one row, and
        with `withBalance` read the routed aggregate after the insert. */
    method Create(req: Request, withBalance: bool) returns (row: Operation, total: Option<int>)
      modifies this
      ensures State() == Created(old(State()), req)
      ensures row == RowOf(req)
      ensures withBalance ==> total == Some(Evaluate(BalanceFunctionFor(req.balanceType), old(State()), req.recipientId) + req.amount)
      ensures !withBalance ==> total == None
    {
      var table := TableFor(req.balanceType);
      var hasBalanceTypeColumn := HasTagColumn(req.balanceType);
      var totalBalanceFunction := BalanceFunctionFor(req.balanceType);
      var tag: Option<string> := None;
      if hasBalanceTypeColumn {
        var parsedBalanceType := if req.balanceType in BalanceTypeMap then BalanceTypeMap[req.balanceType] else req.balanceType;
        tag := Some(parsedBalanceType);
      }
      row := Operation(req.recipientId, req.amount, req.originatorType, req.originatorId, tag);
      ghost var before := State();
      Insert(table, row);
      if withBalance {
        total := Some(Evaluate(totalBalanceFunction, State(), req.recipientId));
        CreateBalance(before, req);
      } else {
        total := None;
      }
    }

    /** `undo`: write the inverse of a queried row through `create`. */
    method Undo(op: LabelledOperation, eventId: Id, withBalance: bool) returns (row: Operation, total: Option<int>)
      modifies this
      ensures State() == Created(old(State()), UndoRequest(op, eventId))
      ensures row.recipientId == op.recipientId && row.amount == -op.amount
      ensures row.originatorType == "event" && row.originatorId == eventId
      ensures row.tag == StoredTag(op.balanceType)
      ensures withBalance ==> total == Some(Evaluate(BalanceFunctionFor(op.balanceType), old(State()), op.recipientId) - op.amount)
      ensures !withBalance ==> total == None
    {
      var inverted := Request(op.balanceType, op.recipientId, op.amount * -1, EventOriginator, eventId);
      row, total := Create(inverted, withBalance);
    }

    /** `findAllByOriginatorId`. */
    method FindAllByOriginatorId(q: OriginatorFilter) returns (rows: seq<LabelledOperation>)
      ensures rows == FindAll(State(), q)
    {
      rows := FindAll(State(), q);
    }

    /** `getContentTabcoinsCreditDebit`: the content's total, credit and debit. */
    method GetContentTabcoinsCreditDebit(recipientId: Id) returns (b: ContentBalance)
      ensures b == ContentBalanceOf(contentTabcoin, recipientId)
      ensures b.total == b.credit + b.debit + Sum(contentTabcoin, recipientId, OtherTags)
    {
      b := ContentBalanceOf(contentTabcoin, recipientId);
      TotalSplitsByTag(contentTabcoin, recipientId);
    }

    /** `rateContent`: stage the four inserts, read the rater's balance and
        the content's aggregate over the staged rows, then commit all four or
        none. */
    method RateContent(g: Rating) returns (r: Result<ContentBalance, RateError>)
      modifies this
      ensures r == RateOutcome(old(State()), g)
      ensures State() == Committed(old(State()), g)
    {
      var staged := State();
      staged := staged.Append(UserTabcoin, RaterDebit(g));
      staged := staged.Append(UserTabcoin, OwnerAdjustment(g));
      staged := staged.Append(UserTabcash, RaterReward(g));
      staged := staged.Append(ContentTabcoin, ContentAdjustment(g));
      var userCurrentTabcoinBalance := Sum(staged.userTabcoin, g.fromUserId, AllTags);
      var contentBalance := ContentBalanceOf(staged.contentTabcoin, g.contentId);
      if userCurrentTabcoinBalance < 0 {
        r := Failure(InsufficientTabcoins(Abs(TabcoinsToDebitFromUser)));
      } else {
        userTabcoin, userTabcash, contentTabcoin, adTabcash :=
          staged.userTabcoin, staged.userTabcash, staged.contentTabcoin, staged.adTabcash;
        r := Success(contentBalance);
      }
    }
  }
}
