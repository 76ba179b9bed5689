/**
 * The transaction store: balance transactions are created and deleted but
 * never updated.
 */
module Transactions {
  import opened Remote
  import Cache

  datatype Transaction = Transaction(id: int, userId: int, adminId: int, amount: int,
                                     transactionDate: string, description: Option<string>)

  function TransactionId(tx: Transaction): int { tx.id }

  /** The endpoint a load action reads. */
  datatype TransactionQuery =
    | AllTransactions
    | ByUserId(userId: int)
    | ByAdminId(adminId: int)
    | ByAdminUser(adminId: int, userId: int)
    | ByDate(date: string)

  /** The endpoint a creation goes to: `createTransaction` or `createSystemTransaction`. */
  datatype Creation = ByAdmin | BySystem

  class TransactionStore {
    var transactions: seq<Transaction>
    var selectedTransaction: Option<Transaction>
    var loading: bool
    var error: Option<ErrorValue>

    /** The store's initial state. */
    constructor ()
      ensures transactions == [] && selectedTransaction == None && !loading && error == None
    {
      transactions := [];
      selectedTransaction := None;
      loading := false;
      error := None;
    }

    /**
     * `loadAllTransactions`, `loadTransactionsByUserId`, `loadTransactionsByAdminId`,
     * `loadTransactionsByAdminUser`, `loadTransactionsByDate`: the server's list
     * replaces the cache and is returned; on failure `[]`.
     */
    method Load(query: TransactionQuery, reply: Outcome<seq<Transaction>>) returns (r: seq<Transaction>)
      modifies this
      ensures !loading && selectedTransaction == old(selectedTransaction)
      ensures reply.Ok? ==> transactions == reply.value && r == reply.value && error == None
      ensures reply.Fail? ==> transactions == old(transactions) && r == [] && error == Some(Reported(reply.failure))
    {
      loading := true;
      error := None;
      match reply {
        case Ok(fetched) =>
          transactions := fetched;
          r := transactions;
        case Fail(f) =>
          error := Some(Reported(f));
          r := [];
      }
      loading := false;
    }

    /** `loadTransactionById`: only the selection changes; on failure `null`. */
    method LoadTransactionById(id: int, reply: Outcome<Transaction>) returns (r: Option<Transaction>)
      modifies this
      ensures !loading && transactions == old(transactions)
      ensures reply.Ok? ==> selectedTransaction == Some(reply.value) && r == Some(reply.value) && error == None
      ensures reply.Fail? ==> selectedTransaction == old(selectedTransaction) && r == None
      ensures reply.Fail? ==> error == Some(Reported(reply.failure))
    {
      loading := true;
      error := None;
      match reply {
        case Ok(tx) =>
          selectedTransaction := Some(tx);
          r := Some(tx);
        case Fail(f) =>
          error := Some(Reported(f));
          r := None;
      }
      loading := false;
    }

    /** `createTransaction` and `createSystemTransaction`: the created transaction is pushed at the end. */
    method Create(endpoint: Creation, txDto: Transaction, reply: Outcome<Transaction>) returns (r: Option<Transaction>)
      modifies this
      ensures !loading && selectedTransaction == old(selectedTransaction)
      ensures reply.Ok? ==> transactions == old(transactions) + [reply.value] && r == Some(reply.value) && error == None
      ensures reply.Fail? ==> transactions == old(transactions) && r == None && error == Some(Reported(reply.failure))
    {
      loading := true;
      error := None;
      match reply {
        case Ok(tx) =>
          transactions := transactions + [tx];
          r := Some(tx);
        case Fail(f) =>
          error := Some(Reported(f));
          r := None;
      }
      loading := false;
    }

    /** `deleteTransaction(id)`: every cached transaction with that id is dropped. */
    method DeleteTransaction(id: int, reply: Outcome<()>)
      modifies this
      ensures !loading && selectedTransaction == old(selectedTransaction)
      ensures reply.Ok? ==> transactions == Cache.RemoveKey(old(transactions), id, TransactionId) && error == None
      ensures reply.Fail? ==> transactions == old(transactions) && error == Some(Reported(reply.failure))
    {
      loading := true;
      error := None;
      match reply {
        case Ok(_) =>
          transactions := Cache.RemoveKey(transactions, id, TransactionId);
        case Fail(f) =>
          error := Some(Reported(f));
      }
      loading := false;
    }
  }
}
