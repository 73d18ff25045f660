/** One client's account: balances, the lock and the history of disputable deposits. */
module Accounts {
  import opened Ids
  import opened Io
  import opened Transactions

  /** The point-in-time report of one account. */
  datatype AccountStatus = AccountStatus(client: ClientId, available: Amount, held: Amount, total: Amount, locked: bool)

  /** The value of an account's fields; it specifies what the methods of `Account` do. */
  datatype AccountState = AccountState(available: Amount, held: Amount, locked: bool, deposits: map<TxId, Transaction>) {

    /** The total is never stored: it is always the sum of available and held funds. */
    function Total(): Amount {
      available + held
    }

    /** The report of this account for `client`. */
    function Status(client: ClientId): (st: AccountStatus)
      ensures st.total == st.available + st.held
      ensures st.client == client && st.available == available && st.held == held && st.locked == locked
    {
      AccountStatus(client, available, held, Total(), locked)
    }

    /** Deposit: credit the amount and remember the deposit, replacing any earlier one with the same id. */
    function Deposited(id: TxId, amount: Amount): (r: AccountState)
      ensures r.available == available + amount
      ensures r.held == held && r.locked == locked
      ensures r.deposits.Keys == deposits.Keys + {id}
      ensures r.deposits[id] == Transaction(amount, false)
      ensures forall k :: k in deposits && k != id ==> r.deposits[k] == deposits[k]
    {
      this.(available := available + amount, deposits := deposits[id := Transaction.Deposit(amount)])
    }

    /** Withdrawal: debit the amount when enough is available, otherwise change nothing. */
    function Withdrawn(amount: Amount): (r: AccountState)
      ensures r.held == held && r.locked == locked && r.deposits == deposits
      ensures available >= amount ==> r.available == available - amount
      ensures available < amount ==> r == this
      // a withdrawal never makes a balance negative that was not already
      ensures r.available < 0 ==> r.available == available
    {
      if available >= amount then this.(available := available - amount) else this
    }

    /** The guard of a dispute: `id` is a stored deposit that is not yet disputed. */
    predicate CanDispute(id: TxId) {
      id in deposits && !deposits[id].disputed
    }

    /** The guard of a resolve and of a chargeback: `id` is a stored deposit under dispute. */
    predicate UnderDispute(id: TxId) {
      id in deposits && deposits[id].disputed
    }

    /** Dispute: move the deposit's amount from available to held and mark it disputed. */
    function Disputed(id: TxId): (r: AccountState)
      ensures r.locked == locked && r.deposits.Keys == deposits.Keys
      ensures CanDispute(id) ==>
        r.held == held + deposits[id].amount && r.available == available - deposits[id].amount &&
        r.UnderDispute(id) && r.deposits[id].amount == deposits[id].amount
      ensures !CanDispute(id) ==> r == this
      ensures forall k :: k in deposits && k != id ==> r.deposits[k] == deposits[k]
    {
      if CanDispute(id) then
        var amount := deposits[id].amount;
        this.(deposits := deposits[id := deposits[id].Dispute()], available := available - amount, held := held + amount)
      else
        this
    }

    /** Resolve: move the disputed deposit's amount back from held to available and clear the mark. */
    function Resolved(id: TxId): (r: AccountState)
      ensures r.locked == locked && r.deposits.Keys == deposits.Keys
      ensures UnderDispute(id) ==>
        r.held == held - deposits[id].amount && r.available == available + deposits[id].amount &&
        r.CanDispute(id) && r.deposits[id].amount == deposits[id].amount
      ensures !UnderDispute(id) ==> r == this
      ensures forall k :: k in deposits && k != id ==> r.deposits[k] == deposits[k]
    {
      if UnderDispute(id) then
        var t := deposits[id];
        this.(available := available + t.amount, held := held - t.amount, deposits := deposits[id := t.Undispute()])
      else
        this
    }

    /** Chargeback: remove the disputed deposit's amount from held, clear the mark and lock the account. */
    function ChargedBack(id: TxId): (r: AccountState)
      ensures r.available == available && r.deposits.Keys == deposits.Keys
      ensures UnderDispute(id) ==>
        r.held == held - deposits[id].amount && r.locked && r.CanDispute(id) && r.deposits[id].amount == deposits[id].amount
      ensures !UnderDispute(id) ==> r == this
      ensures forall k :: k in deposits && k != id ==> r.deposits[k] == deposits[k]
    {
      if UnderDispute(id) then
        var t := deposits[id];
        this.(held := held - t.amount, deposits := deposits[id := t.Undispute()], locked := true)
      else
        this
    }

    /** Apply one record: a locked account ignores it, otherwise it is dispatched on its kind. */
    function Processed(line: InputLine): (r: AccountState)
      requires line.HasNeededAmount()
      // lock finality
      ensures locked ==> r == this
      // a chargeback of a disputed deposit is the only way to become locked
      ensures r.locked <==> locked || (line.kind.Chargeback? && UnderDispute(line.id))
      // stored deposits are never forgotten
      ensures deposits.Keys <= r.deposits.Keys
      ensures !line.kind.Deposit? ==> r.deposits.Keys == deposits.Keys
    {
      if locked then this
      else
        match line.kind
        case Deposit => Deposited(line.id, line.amount.value)
        case Withdrawal => Withdrawn(line.amount.value)
        case Dispute => Disputed(line.id)
        case Resolve => Resolved(line.id)
        case Chargeback => ChargedBack(line.id)
    }
  }

  /** A new account: nothing available, nothing held, unlocked, no deposits. */
  const DefaultAccount: AccountState := AccountState(0, 0, false, map[])

  /** The account object whose fields the operations update in place. */
  class Account {
    var available: Amount
    var held: Amount
    var locked: bool
    /** The disputable transactions, by id; only deposits are stored. */
    var deposits: map<TxId, Transaction>

    /** The current value of the fields. */
    function State(): AccountState
      reads this
    {
      AccountState(available, held, locked, deposits)
    }

    constructor ()
      ensures State() == DefaultAccount
    {
      available := 0;
      held := 0;
      locked := false;
      deposits := map[];
    }

    /** Apply one record unless the account is locked. */
    method Process(line: InputLine)
      requires line.HasNeededAmount()
      modifies this
      ensures State() == old(State()).Processed(line)
    {
      if !locked {
        match line.kind
        case Deposit => Deposit(line);
        case Withdrawal => Withdrawal(line);
        case Dispute => Dispute(line);
        case Resolve => Resolve(line);
        case Chargeback => Chargeback(line);
      }
    }

    function GetStatus(client: ClientId): (st: AccountStatus)
      reads this
      ensures st == State().Status(client)
    {
      AccountStatus(client, available, held, Total(), locked)
    }

    method Deposit(line: InputLine)
      requires line.amount.Some?
      modifies this
      ensures State() == old(State()).Deposited(line.id, line.amount.value)
    {
      var amount := line.amount.value;
      available := available + amount;
      deposits := deposits[line.id := Transaction.Deposit(amount)];
    }

    method Withdrawal(line: InputLine)
      requires line.amount.Some?
      modifies this
      ensures State() == old(State()).Withdrawn(line.amount.value)
    {
      var amount := line.amount.value;
      if available >= amount {
        available := available - amount;
      }
    }

    method Dispute(line: InputLine)
      modifies this
      ensures State() == old(State()).Disputed(line.id)
    {
      if line.id in deposits {
        var transaction := deposits[line.id];
        if !transaction.disputed {
          transaction := transaction.Dispute();
          deposits := deposits[line.id := transaction];
          var amount := transaction.amount;
          available := available - amount;
          held := held + amount;
        }
      }
    }

    method Resolve(line: InputLine)
      modifies this
      ensures State() == old(State()).Resolved(line.id)
    {
      if line.id in deposits {
        var transaction := deposits[line.id];
        if transaction.disputed {
          available := available + transaction.amount;
          held := held - transaction.amount;
          deposits := deposits[line.id := transaction.Undispute()];
        }
      }
    }

    method Chargeback(line: InputLine)
      modifies this
      ensures State() == old(State()).ChargedBack(line.id)
    {
      if line.id in deposits {
        var transaction := deposits[line.id];
        if transaction.disputed {
          held := held - transaction.amount;
          deposits := deposits[line.id := transaction.Undispute()];
          Lock();
        }
      }
    }

    function Total(): (t: Amount)
      reads this
      ensures t == State().Total()
    {
      available + held
    }

    method Lock()
      modifies this
      ensures State() == old(State()).(locked := true)
    {
      locked := true;
    }
  }
}
