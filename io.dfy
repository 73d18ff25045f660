/** The typed operation record handed to the engine, and its amount-presence check. */
module Io {
  import opened Ids

  /** The five kinds of operation record. */
  datatype InputLineType = Deposit | Withdrawal | Dispute | Resolve | Chargeback {
    /** The kinds whose records must carry an amount. */
    predicate CarriesAmount() {
      Deposit? || Withdrawal?
    }
  }

  /** One record of the input: its kind, the client it is addressed to, the
      transaction id and an optional amount. */
  datatype InputLine = InputLine(kind: InputLineType, client: ClientId, id: TxId, amount: Option<Amount>) {

    /** A record is valid when an amount is present exactly for the kinds that carry one. */
    predicate Valid()
      ensures Valid() <==> (kind.CarriesAmount() <==> amount.Some?)
    {
      match kind
      case Deposit => amount.Some?
      case Withdrawal => amount.Some?
      case Dispute => amount.None?
      case Resolve => amount.None?
      case Chargeback => amount.None?
    }

    /** What an account needs of a record it applies: the kinds that use an amount have one.
        Every valid record has this shape. */
    predicate HasNeededAmount() {
      kind.CarriesAmount() ==> amount.Some?
    }
  }

  /** Validity looks only at the kind and at whether an amount is present: never at the
      client, the transaction id or the amount's value. */
  lemma ValidDependsOnlyOnShape(a: InputLine, b: InputLine)
    requires a.kind == b.kind && a.amount.Some? == b.amount.Some?
    ensures a.Valid() == b.Valid()
  {
  }

  /** A valid record has every amount an account will unwrap. */
  lemma ValidHasNeededAmount(line: InputLine)
    requires line.Valid()
    ensures line.HasNeededAmount()
  {
  }
}
