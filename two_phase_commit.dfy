/**
 * Two-phase commit between bank accounts: `BankService` is a participant that
 * prepares, commits and aborts debits and credits keyed by transaction id, and
 * `TwoPhaseCommitCoordinator` collects the two votes and sends the same
 * decision to both participants.
 */
module TwoPhaseCommit {

  /**
   * The operation type a caller passes to prepare: the strings "debit" and
   * "credit" are `Debit` and `Credit`; every other string is
   * `Unrecognized(typeName)`, so `typeName` is never "debit" or "credit".
   */
  datatype TxType = Debit | Credit | Unrecognized(typeName: string)

  /** What a participant remembers about a prepared transaction. */
  datatype PreparedRecord = PreparedRecord(amount: int, kind: TxType)

  /** The state labels a participant writes to its log. */
  datatype LogState = PreparedDebit | PreparedCredit | Committed | Aborted

  /** One entry of a participant's append-only log: "[<service>] <transactionId>: <state>". */
  datatype LogEntry = LogEntry(service: string, transactionId: string, state: LogState)

  /** The vote a participant with balance `balance` gives in its prepare phase. */
  predicate Vote(balance: int, amount: int, kind: TxType)
  {
    kind.Credit? || (kind.Debit? && balance >= amount)
  }

  /** The balance after committing a prepared record. */
  function Settled(balance: int, rec: PreparedRecord): int
  {
    match rec.kind
    case Debit => balance - rec.amount
    case Credit => balance + rec.amount
    case Unrecognized(_) => balance
  }

  class BankService {
    const name: string
    var balance: int
    var preparedTransactions: map<string, PreparedRecord>
    var log: seq<LogEntry>

    /** Only debits and credits are ever held in the prepared state. */
    ghost predicate Valid()
      reads this
    {
      forall id :: id in preparedTransactions ==> !preparedTransactions[id].kind.Unrecognized?
    }

    constructor (name: string, initialBalance: int)
      ensures Valid()
      ensures this.name == name && balance == initialBalance
      ensures preparedTransactions == map[] && log == []
    {
      this.name := name;
      balance := initialBalance;
      preparedTransactions := map[];
      log := [];
    }

    /** Appends one entry to the log; stands for a durable write. */
    method SimulateDbWrite(transactionId: string, state: LogState)
      modifies this`log
      ensures log == old(log) + [LogEntry(name, transactionId, state)]
    {
      log := log + [LogEntry(name, transactionId, state)];
    }

    /**
     * Phase 1. A debit is prepared only when the balance covers it; a credit is
     * always prepared; any other kind is refused. Preparing never moves money,
     * and a record already held under the same id is overwritten.
     */
    method PrepareTransaction(transactionId: string, amount: int, kind: TxType) returns (canPrepare: bool)
      requires Valid()
      modifies this
      ensures Valid()
      ensures canPrepare == Vote(old(balance), amount, kind)
      ensures balance == old(balance)
      ensures canPrepare ==>
        && preparedTransactions == old(preparedTransactions)[transactionId := PreparedRecord(amount, kind)]
        && log == old(log) + [LogEntry(name, transactionId, if kind.Debit? then PreparedDebit else PreparedCredit)]
      ensures !canPrepare ==> preparedTransactions == old(preparedTransactions) && log == old(log)
    {
      canPrepare := true;
      if kind.Debit? {
        if balance >= amount {
          preparedTransactions := preparedTransactions[transactionId := PreparedRecord(amount, kind)];
          SimulateDbWrite(transactionId, PreparedDebit);
        } else {
          canPrepare := false;
        }
      } else if kind.Credit? {
        preparedTransactions := preparedTransactions[transactionId := PreparedRecord(amount, kind)];
        SimulateDbWrite(transactionId, PreparedCredit);
      } else {
        canPrepare := false;
      }
    }

    /**
     * Phase 2, commit. Applies the prepared debit or credit, forgets the record
     * and logs COMMITTED; without a prepared record it reports false and does
     * nothing.
     */
    method CommitTransaction(transactionId: string) returns (ok: bool)
      requires Valid()
      modifies this
      ensures Valid()
      ensures ok == (transactionId in old(preparedTransactions))
      ensures ok ==>
        && balance == Settled(old(balance), old(preparedTransactions)[transactionId])
        && preparedTransactions == old(preparedTransactions) - {transactionId}
        && log == old(log) + [LogEntry(name, transactionId, Committed)]
      ensures !ok ==>
        balance == old(balance) && preparedTransactions == old(preparedTransactions) && log == old(log)
    {
      if transactionId in preparedTransactions {
        var txData := preparedTransactions[transactionId];
        if txData.kind.Debit? {
          balance := balance - txData.amount;
        } else if txData.kind.Credit? {
          balance := balance + txData.amount;
        }
        preparedTransactions := preparedTransactions - {transactionId};
        SimulateDbWrite(transactionId, Committed);
        return true;
      }
      return false;
    }

    /**
     * Phase 2, abort. Forgets the prepared record without touching the balance
     * and logs ABORTED; without a prepared record (for instance a second abort)
     * it reports false and does nothing.
     */
    method AbortTransaction(transactionId: string) returns (ok: bool)
      requires Valid()
      modifies this
      ensures Valid()
      ensures ok == (transactionId in old(preparedTransactions))
      ensures balance == old(balance)
      ensures ok ==>
        && preparedTransactions == old(preparedTransactions) - {transactionId}
        && log == old(log) + [LogEntry(name, transactionId, Aborted)]
      ensures !ok ==> preparedTransactions == old(preparedTransactions) && log == old(log)
    {
      if transactionId in preparedTransactions {
        preparedTransactions := preparedTransactions - {transactionId};
        SimulateDbWrite(transactionId, Aborted);
        return true;
      }
      return false;
    }
  }

  /**
   * The coordinator's vote check: walks the votes in order and stops at the
   * first refusal. The decision is to commit exactly when every vote is true.
   */
  method CollectVotes(votes: seq<bool>) returns (allPrepared: bool)
    ensures allPrepared <==> forall i :: 0 <= i < |votes| ==> votes[i]
  {
    allPrepared := true;
    var i := 0;
    while i < |votes|
      invariant 0 <= i <= |votes|
      invariant allPrepared
      invariant forall j :: 0 <= j < i ==> votes[j]
    {
      if !votes[i] {
        allPrepared := false;
        break;
      }
      i := i + 1;
    }
  }

  class TwoPhaseCommitCoordinator {
    const participants: seq<BankService>

    constructor (participants: seq<BankService>)
      ensures this.participants == participants
    {
      this.participants := participants;
    }

    /**
     * Runs one transfer: prepare the debit, prepare the credit, then commit
     * both if both voted yes and abort both otherwise. Since a credit always
     * votes yes, the decision is the debitor's funds check.
     */
    method InitiateDistributedTransaction(transactionId: string,
                                          debitorService: BankService, debitorAmount: int,
                                          creditorService: BankService, creditorAmount: int)
      requires debitorService.Valid() && creditorService.Valid()
      modifies debitorService, creditorService
      ensures debitorService.Valid() && creditorService.Valid()
      // whatever happens, neither participant is left holding the transaction
      ensures transactionId !in debitorService.preparedTransactions
      ensures transactionId !in creditorService.preparedTransactions
      // distinct participants: both commit or both abort
      ensures debitorService != creditorService ==>
        var commit := old(debitorService.balance) >= debitorAmount;
        && debitorService.preparedTransactions == old(debitorService.preparedTransactions) - {transactionId}
        && creditorService.preparedTransactions == old(creditorService.preparedTransactions) - {transactionId}
        && debitorService.balance == (if commit then old(debitorService.balance) - debitorAmount else old(debitorService.balance))
        && creditorService.balance == (if commit then old(creditorService.balance) + creditorAmount else old(creditorService.balance))
        && debitorService.log == old(debitorService.log) +
             (if commit then [LogEntry(debitorService.name, transactionId, PreparedDebit),
                              LogEntry(debitorService.name, transactionId, Committed)]
              else if transactionId in old(debitorService.preparedTransactions)
              then [LogEntry(debitorService.name, transactionId, Aborted)]
              else [])
        && creditorService.log == old(creditorService.log) +
             [LogEntry(creditorService.name, transactionId, PreparedCredit),
              LogEntry(creditorService.name, transactionId, if commit then Committed else Aborted)]
      // distinct participants, equal amounts: money is moved, not created
      ensures debitorService != creditorService && debitorAmount == creditorAmount ==>
        debitorService.balance + creditorService.balance == old(debitorService.balance + creditorService.balance)
      // one service on both sides: the credit record replaces the debit record,
      // so a covered self-transfer only credits
      ensures debitorService == creditorService ==>
        var covered := old(debitorService.balance) >= debitorAmount;
        && debitorService.preparedTransactions == old(debitorService.preparedTransactions) - {transactionId}
        && debitorService.balance == (if covered then old(debitorService.balance) + creditorAmount else old(debitorService.balance))
        && debitorService.log == old(debitorService.log) +
             (if covered then [LogEntry(debitorService.name, transactionId, PreparedDebit)] else []) +
             [LogEntry(debitorService.name, transactionId, PreparedCredit),
              LogEntry(debitorService.name, transactionId, if covered then Committed else Aborted)]
    {
      // Phase 1: prepare, debitor first
      var debitVote := debitorService.PrepareTransaction(transactionId, debitorAmount, Debit);
      var creditVote := creditorService.PrepareTransaction(transactionId, creditorAmount, Credit);
      var votes := [debitVote, creditVote];
      var allPrepared := CollectVotes(votes);
      assert allPrepared == (votes[0] && votes[1]);
      // Phase 2: the same decision for both
      if allPrepared {
        var _ := debitorService.CommitTransaction(transactionId);
        var _ := creditorService.CommitTransaction(transactionId);
      } else {
        var _ := debitorService.AbortTransaction(transactionId);
        var _ := creditorService.AbortTransaction(transactionId);
      }
    }
  }

  /**
   * Aborting is not repeatable: the first abort of a prepared transaction
   * succeeds, the second finds nothing prepared and reports false, and the
   * balance never moves.
   */
  method AbortTwiceExample() returns (first: bool, second: bool, balance: int)
    ensures first && !second && balance == 500
  {
    var bank := new BankService("Bank B", 500);
    var vote := bank.PrepareTransaction("TXN", 200, Credit);
    assert vote;
    first := bank.AbortTransaction("TXN");
    second := bank.AbortTransaction("TXN");
    balance := bank.balance;
  }

  /**
   * The three transfers of the 2PC simulation, returning both balances after
   * each: a covered transfer, a refused one, and a transfer back.
   */
  method Run2PCExample() returns (a1: int, b1: int, a2: int, b2: int, a3: int, b3: int)
    ensures a1 == 800 && b1 == 700
    ensures a2 == 800 && b2 == 700
    ensures a3 == 900 && b3 == 600
  {
    var bankA := new BankService("Bank A", 1000);
    var bankB := new BankService("Bank B", 500);
    var coordinator := new TwoPhaseCommitCoordinator([bankA, bankB]);

    coordinator.InitiateDistributedTransaction("TXN001", bankA, 200, bankB, 200);
    a1, b1 := bankA.balance, bankB.balance;

    coordinator.InitiateDistributedTransaction("TXN002", bankA, 900, bankB, 900);
    a2, b2 := bankA.balance, bankB.balance;

    coordinator.InitiateDistributedTransaction("TXN003", bankB, 100, bankA, 100);
    a3, b3 := bankA.balance, bankB.balance;
  }
}
