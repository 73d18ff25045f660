/** A stored deposit: its amount and whether it is currently disputed. */
module Transactions {
  import opened Ids

  /** The selectors `amount` and `disputed` are the two accessors of the stored deposit. */
  datatype Transaction = Transaction(amount: Amount, disputed: bool) {

    /** A freshly accepted deposit: the given amount, not disputed. */
    static function Deposit(amount: Amount): (t: Transaction)
      ensures t.amount == amount && !t.disputed
    {
      Transaction(amount, false)
    }

    /** Mark as disputed; a disputed transaction is returned as it is. */
    function Dispute(): (t: Transaction)
      ensures t.disputed && t.amount == amount
      ensures disputed ==> t == this
    {
      if !disputed then this.(disputed := true) else this
    }

    /** Clear the disputed mark; an undisputed transaction is returned as it is. */
    function Undispute(): (t: Transaction)
      ensures !t.disputed && t.amount == amount
      ensures !disputed ==> t == this
    {
      if disputed then this.(disputed := false) else this
    }
  }

  /** Disputing twice is disputing once. */
  lemma DisputeIdempotent(t: Transaction)
    ensures t.Dispute().Dispute() == t.Dispute()
  {
  }

  /** Undisputing twice is undisputing once. */
  lemma UndisputeIdempotent(t: Transaction)
    ensures t.Undispute().Undispute() == t.Undispute()
  {
  }

  /** Undisputing a transaction that was just disputed restores it. */
  lemma UndisputeAfterDispute(t: Transaction)
    requires !t.disputed
    ensures t.Dispute().Undispute() == t
  {
  }
}
