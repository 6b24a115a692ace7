/** Values shared by the whole ledger model: the operation tables, their rows,
    the records the ledger's callers pass in and get back. */
module LedgerTypes {

  /** Subject and originator identifiers are opaque to the ledger. */
  type Id = string

  datatype Option<+T> = None | Some(value: T)

  datatype Result<+T, +E> = Success(value: T) | Failure(error: E)

  /** The four operation tables the ledger writes. */
  datatype Table = UserTabcoin | UserTabcash | ContentTabcoin | AdTabcash

  /** The aggregate SQL functions the ledger calls by name. */
  datatype BalanceFunction =
    | GetUserCurrentTabcoins
    | GetUserCurrentTabcash
    | GetAdCurrentTabcash
    | GetContentCurrentTabcoins

  /** One stored row of an operation table. `tag` is the `balance_type`
      column: None when the insert left the column out. Row ids and
      timestamps are generated by the database and are not modelled. */
  datatype Operation = Operation(
    recipientId: Id,
    amount: int,
    originatorType: string,
    originatorId: Id,
    tag: Option<string>)

  /** A row as the provenance query returns it, with `balance_type`
      rewritten into a full balance-type label. */
  datatype LabelledOperation = LabelledOperation(
    recipientId: Id,
    amount: int,
    originatorType: string,
    originatorId: Id,
    balanceType: string)

  /** The argument record of `create`. */
  datatype Request = Request(
    balanceType: string,
    recipientId: Id,
    amount: int,
    originatorType: string,
    originatorId: Id)

  /** The content aggregate: total, credit subtotal and debit subtotal. */
  datatype ContentBalance = ContentBalance(total: int, credit: int, debit: int)

  /** The one failure of a rating: the rater lacks the tabcoins it costs. */
  datatype RateError = InsufficientTabcoins(required: nat)

  /** The contents of the four tables. */
  datatype Store = Store(
    userTabcoin: seq<Operation>,
    userTabcash: seq<Operation>,
    contentTabcoin: seq<Operation>,
    adTabcash: seq<Operation>)
  {
    function Rows(t: Table): seq<Operation> {
      match t
      case UserTabcoin => userTabcoin
      case UserTabcash => userTabcash
      case ContentTabcoin => contentTabcoin
      case AdTabcash => adTabcash
    }

    /** An INSERT of one row into table `t`. */
    function Append(t: Table, row: Operation): (s: Store)
      ensures s.Rows(t) == Rows(t) + [row]
      ensures forall u :: u != t ==> s.Rows(u) == Rows(u)
    {
      match t
      case UserTabcoin => this.(userTabcoin := userTabcoin + [row])
      case UserTabcash => this.(userTabcash := userTabcash + [row])
      case ContentTabcoin => this.(contentTabcoin := contentTabcoin + [row])
      case AdTabcash => this.(adTabcash := adTabcash + [row])
    }
  }

  const EmptyStore := Store([], [], [], [])
}
