/** What `create`, `undo` and `rateContent` do to the tables, as functions of
    the tables before the call, and what they promise. */
module Operations {
  import opened LedgerTypes
  import opened Routing
  import opened Aggregates
  import opened Provenance

  // ---------------------------------------------------------------- create

  /** The row `create` inserts for a request. */
  function RowOf(req: Request): Operation {
    Operation(req.recipientId, req.amount, req.originatorType, req.originatorId, StoredTag(req.balanceType))
  }

  /** The tables after `create`. */
  function Created(s: Store, req: Request): Store {
    s.Append(TableFor(req.balanceType), RowOf(req))
  }

  /** `create` adds exactly one row, with the request's fields copied
      unchanged, to the routed table, and no other table changes. */
  lemma CreateAppendsOneRow(s: Store, req: Request)
    ensures var t := TableFor(req.balanceType);
            var after := Created(s, req);
            && |after.Rows(t)| == |s.Rows(t)| + 1
            && after.Rows(t)[..|s.Rows(t)|] == s.Rows(t)
            && after.Rows(t)[|s.Rows(t)|].recipientId == req.recipientId
            && after.Rows(t)[|s.Rows(t)|].amount == req.amount
            && after.Rows(t)[|s.Rows(t)|].originatorType == req.originatorType
            && after.Rows(t)[|s.Rows(t)|].originatorId == req.originatorId
            && (forall u :: u != t ==> after.Rows(u) == s.Rows(u))
  {
  }

  /** The total `create` returns with `withBalance`, read after the insert, is
      the recipient's balance before it plus the amount written. */
  lemma CreateBalance(s: Store, req: Request)
    ensures Evaluate(BalanceFunctionFor(req.balanceType), Created(s, req), req.recipientId)
         == Evaluate(BalanceFunctionFor(req.balanceType), s, req.recipientId) + req.amount
  {
    BalanceFunctionMatchesTable(req.balanceType);
    SumAppend(s.Rows(TableFor(req.balanceType)), RowOf(req), req.recipientId, AllTags);
  }

  // ------------------------------------------------------------------ undo

  const EventOriginator := "event"
  const UserOriginator := "user"

  /** The inverted operation `undo` passes to `create`. */
  function UndoRequest(op: LabelledOperation, eventId: Id): Request {
    Request(op.balanceType, op.recipientId, -op.amount, EventOriginator, eventId)
  }

  /** Undoing a row the provenance query returned writes, to that row's own
      table, a row for the same recipient with the amount negated and the
      event as originator; the tag survives exactly when it round-trips. */
  lemma UndoOfQueriedRow(t: Table, row: Operation, eventId: Id)
    requires t != AdTabcash
    ensures var req := UndoRequest(Labelled(t, row), eventId);
            && TableFor(req.balanceType) == t
            && RowOf(req).recipientId == row.recipientId
            && RowOf(req).amount == -row.amount
            && RowOf(req).originatorType == EventOriginator
            && RowOf(req).originatorId == eventId
            && (RowOf(req).tag == row.tag <==> RoundTrips(t, row.tag))
  {
    LabelRoundTrip(t, row.tag);
  }

  /** Undoing the undo of a queried row writes the original row back, to the
      original table, except for its originator. */
  lemma UndoTwiceRestores(t: Table, row: Operation, e1: Id, e2: Id)
    requires t != AdTabcash && RoundTrips(t, row.tag)
    ensures var once := RowOf(UndoRequest(Labelled(t, row), e1));
            var req := UndoRequest(Labelled(t, once), e2);
            && TableFor(req.balanceType) == t
            && RowOf(req) == row.(originatorType := EventOriginator, originatorId := e2)
  {
    var once := RowOf(UndoRequest(Labelled(t, row), e1));
    UndoOfQueriedRow(t, row, e1);
    UndoOfQueriedRow(t, once, e2);
  }

  /** For any queried row, tag or no tag, undoing its undo writes to the
      row's own table, for the same recipient, with the original amount. */
  lemma UndoTwiceRestoresAmount(t: Table, row: Operation, e1: Id, e2: Id)
    requires t != AdTabcash
    ensures var once := RowOf(UndoRequest(Labelled(t, row), e1));
            var req := UndoRequest(Labelled(t, once), e2);
            && TableFor(req.balanceType) == t
            && RowOf(req).recipientId == row.recipientId
            && RowOf(req).amount == row.amount
  {
    var once := RowOf(UndoRequest(Labelled(t, row), e1));
    UndoOfQueriedRow(t, row, e1);
    UndoOfQueriedRow(t, once, e2);
  }

  /** After undoing row `i` of a queried table, every balance of that table
      (and, when the tag round-trips, every subtotal) equals the balance of the
      history with row `i` left out; rows written before or after it still
      count. */
  lemma UndoCancels(s: Store, t: Table, i: nat, eventId: Id, id: Id, sel: Selector)
    requires t != AdTabcash && i < |s.Rows(t)|
    requires sel.AllTags? || RoundTrips(t, s.Rows(t)[i].tag)
    ensures var after := Created(s, UndoRequest(Labelled(t, s.Rows(t)[i]), eventId));
            Sum(after.Rows(t), id, sel) == Sum(s.Rows(t)[..i] + s.Rows(t)[i + 1..], id, sel)
  {
    var row := s.Rows(t)[i];
    var req := UndoRequest(Labelled(t, row), eventId);
    UndoOfQueriedRow(t, row, eventId);
    SumAppend(s.Rows(t), RowOf(req), id, sel);
    SumRemove(s.Rows(t), i, id, sel);
  }

  // ---------------------------------------------------------- rateContent

  datatype Rating = Rating(
    contentId: Id,
    contentOwnerId: Id,
    fromUserId: Id,
    transactionType: string,
    eventId: Id)

  /** Tabcoins a rating moves on the rater's balance. */
  const TabcoinsToDebitFromUser: int := -2
  /** Tabcash a rating earns the rater. */
  const TabcashToCreditToUser: int := 1

  function Abs(x: int): nat {
    if x < 0 then -x else x
  }

  /** +1 for a "credit" rating, -1 for anything else. */
  function Sign(transactionType: string): int {
    if transactionType == "credit" then 1 else -1
  }

  function RaterDebit(g: Rating): Operation {
    Operation(g.fromUserId, TabcoinsToDebitFromUser, EventOriginator, g.eventId, None)
  }

  function OwnerAdjustment(g: Rating): Operation {
    Operation(g.contentOwnerId, Sign(g.transactionType), EventOriginator, g.eventId, None)
  }

  function RaterReward(g: Rating): Operation {
    Operation(g.fromUserId, TabcashToCreditToUser, EventOriginator, g.eventId, None)
  }

  /** The content row is tagged with the raw transaction type and attributed
      to the rater, not to the event. */
  function ContentAdjustment(g: Rating): Operation {
    Operation(g.contentId, Sign(g.transactionType), UserOriginator, g.fromUserId, Some(g.transactionType))
  }

  /** The tables with the rating's four inserts staged. */
  function Staged(s: Store, g: Rating): Store {
    s.Append(UserTabcoin, RaterDebit(g))
     .Append(UserTabcoin, OwnerAdjustment(g))
     .Append(UserTabcash, RaterReward(g))
     .Append(ContentTabcoin, ContentAdjustment(g))
  }

  /** The rating's outcome: the check reads the staged rows. */
  function RateOutcome(s: Store, g: Rating): Result<ContentBalance, RateError> {
    var staged := Staged(s, g);
    if Sum(staged.userTabcoin, g.fromUserId, AllTags) < 0 then
      Failure(InsufficientTabcoins(Abs(TabcoinsToDebitFromUser)))
    else
      Success(ContentBalanceOf(staged.contentTabcoin, g.contentId))
  }

  /** What a rating commits: the staged tables on success, nothing on failure. */
  function Committed(s: Store, g: Rating): Store {
    if RateOutcome(s, g).Success? then Staged(s, g) else s
  }

  /** How the rater's own tabcoin balance moves: -2, and the owner's
      adjustment too when raters rate their own content. */
  function RaterDelta(g: Rating): int {
    TabcoinsToDebitFromUser + (if g.contentOwnerId == g.fromUserId then Sign(g.transactionType) else 0)
  }

  /** A rating stages exactly four rows: two in user tabcoin, one in user
      tabcash, one in content tabcoin; the ad table is untouched. */
  lemma RatingWriteSet(s: Store, g: Rating)
    ensures Staged(s, g).userTabcoin == s.userTabcoin
              + [Operation(g.fromUserId, -2, "event", g.eventId, None),
                 Operation(g.contentOwnerId, Sign(g.transactionType), "event", g.eventId, None)]
    ensures Staged(s, g).userTabcash == s.userTabcash
              + [Operation(g.fromUserId, 1, "event", g.eventId, None)]
    ensures Staged(s, g).contentTabcoin == s.contentTabcoin
              + [Operation(g.contentId, Sign(g.transactionType), "user", g.fromUserId, Some(g.transactionType))]
    ensures Staged(s, g).adTabcash == s.adTabcash
    ensures Sign(g.transactionType) == 1 <==> g.transactionType == "credit"
    ensures Sign(g.transactionType) == -1 <==> g.transactionType != "credit"
  {
  }

  /** The rater's staged balance is the old one moved by `RaterDelta`. */
  lemma StagedRaterBalance(s: Store, g: Rating)
    ensures Sum(Staged(s, g).userTabcoin, g.fromUserId, AllTags)
         == Sum(s.userTabcoin, g.fromUserId, AllTags) + RaterDelta(g)
  {
    SumAppend(s.userTabcoin, RaterDebit(g), g.fromUserId, AllTags);
    SumAppend(s.userTabcoin + [RaterDebit(g)], OwnerAdjustment(g), g.fromUserId, AllTags);
  }

  /** A rating fails, with the minimum of 2 tabcoins, exactly when the
      rater's balance after it would be negative; a resulting 0 succeeds.
      A committed rating never leaves the rater negative. */
  lemma RatingAbortsIffNegative(s: Store, g: Rating)
    ensures RateOutcome(s, g).Failure? <==> Sum(s.userTabcoin, g.fromUserId, AllTags) + RaterDelta(g) < 0
    ensures RateOutcome(s, g).Failure? ==> RateOutcome(s, g).error == InsufficientTabcoins(2)
    ensures RateOutcome(s, g).Failure? ==> Committed(s, g) == s
    ensures RateOutcome(s, g).Success? ==> Sum(Committed(s, g).userTabcoin, g.fromUserId, AllTags) >= 0
  {
    StagedRaterBalance(s, g);
  }

  /** On success the rating returns the content's aggregate after it: the
      total moves by the sign, and the credit or debit subtotal moves with it
      only for the transaction type named "credit" or "debit". */
  lemma RatingContentResult(s: Store, g: Rating)
    requires RateOutcome(s, g).Success?
    ensures var before := ContentBalanceOf(s.contentTabcoin, g.contentId);
            RateOutcome(s, g).value == ContentBalance(
              before.total + Sign(g.transactionType),
              before.credit + (if g.transactionType == "credit" then 1 else 0),
              before.debit + (if g.transactionType == "debit" then -1 else 0))
  {
    var row := ContentAdjustment(g);
    SumAppend(s.contentTabcoin, row, g.contentId, AllTags);
    SumAppend(s.contentTabcoin, row, g.contentId, Tagged("credit"));
    SumAppend(s.contentTabcoin, row, g.contentId, Tagged("debit"));
  }

  /** The event's provenance gains exactly the three user-side rows; the
      content row is found under the rater instead. */
  lemma RatingProvenance(s: Store, g: Rating)
    requires g.fromUserId != g.eventId
    ensures multiset(FindAll(Staged(s, g), Single(g.eventId)))
         == multiset(FindAll(s, Single(g.eventId)))
            + multiset{Labelled(UserTabcoin, RaterDebit(g)), Labelled(UserTabcoin, OwnerAdjustment(g)),
                       Labelled(UserTabcash, RaterReward(g))}
    ensures Labelled(ContentTabcoin, ContentAdjustment(g)) in FindAll(Staged(s, g), Single(g.fromUserId))
  {
    var q := Single(g.eventId);
    var a, b, c := Labelled(UserTabcoin, RaterDebit(g)), Labelled(UserTabcoin, OwnerAdjustment(g)),
                   Labelled(UserTabcash, RaterReward(g));
    var coins, cash, content := Select(s.userTabcoin, UserTabcoin, q), Select(s.userTabcash, UserTabcash, q),
                                Select(s.contentTabcoin, ContentTabcoin, q);
    RatingWriteSet(s, g);
    var after := Staged(s, g);
    assert after.userTabcoin == (s.userTabcoin + [RaterDebit(g)]) + [OwnerAdjustment(g)];
    SelectAppend(s.userTabcoin, RaterDebit(g), UserTabcoin, q);
    SelectAppend(s.userTabcoin + [RaterDebit(g)], OwnerAdjustment(g), UserTabcoin, q);
    assert Select(after.userTabcoin, UserTabcoin, q) == coins + [a] + [b];
    SelectAppend(s.userTabcash, RaterReward(g), UserTabcash, q);
    assert Select(after.userTabcash, UserTabcash, q) == cash + [c];
    SelectAppend(s.contentTabcoin, ContentAdjustment(g), ContentTabcoin, q);
    assert Select(after.contentTabcoin, ContentTabcoin, q) == content;
    MultisetOfInserts(coins, cash, content, a, b, c);
    var rows := after.contentTabcoin;
    assert rows[|rows| - 1] == ContentAdjustment(g);
  }

  lemma MultisetOfInserts<T>(coins: seq<T>, cash: seq<T>, content: seq<T>, a: T, b: T, c: T)
    ensures multiset(coins + [a] + [b] + (cash + [c]) + content)
         == multiset(coins + cash + content) + multiset{a, b, c}
  {
  }

  /** A rater holding no tabcoins cannot rate, and nothing is recorded under
      the event. */
  lemma RatingWithZeroBalanceFails(s: Store, g: Rating)
    requires Sum(s.userTabcoin, g.fromUserId, AllTags) == 0
    ensures RateOutcome(s, g) == Failure(InsufficientTabcoins(2))
    ensures FindAll(Committed(s, g), Single(g.eventId)) == FindAll(s, Single(g.eventId))
  {
    RatingAbortsIffNegative(s, g);
  }

  /** A rater holding 5 tabcoins who credits fresh content keeps 3, and the
      content's aggregate becomes total 1, credit 1, debit 0. */
  lemma RatingFromFiveTabcoins(s: Store, g: Rating)
    requires Sum(s.userTabcoin, g.fromUserId, AllTags) == 5
    requires g.contentOwnerId != g.fromUserId && g.transactionType == "credit"
    requires ContentBalanceOf(s.contentTabcoin, g.contentId) == ContentBalance(0, 0, 0)
    ensures RateOutcome(s, g) == Success(ContentBalance(1, 1, 0))
    ensures Sum(Committed(s, g).userTabcoin, g.fromUserId, AllTags) == 3
  {
    RatingAbortsIffNegative(s, g);
    StagedRaterBalance(s, g);
    RatingContentResult(s, g);
  }

  /** The balance check guards the rater only: a debit rating commits even
      when it leaves the content owner with a negative tabcoin balance. */
  lemma OwnerMayGoNegative()
    ensures var s := Store([Operation("rater", 2, "system", "seed", None)], [], [], []);
            var g := Rating("content", "owner", "rater", "debit", "event");
            RateOutcome(s, g).Success? && Sum(Committed(s, g).userTabcoin, "owner", AllTags) == -1
  {
  }
}
