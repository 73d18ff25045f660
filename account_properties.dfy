/** Properties of the account state machine that relate several operations. */
module AccountProperties {
  import opened Ids
  import opened Io
  import opened Transactions
  import opened Accounts

  /** Disputing the same deposit twice has the effect of disputing it once. */
  lemma DisputeIdempotent(s: AccountState, id: TxId)
    ensures s.Disputed(id).Disputed(id) == s.Disputed(id)
  {
  }

  /** Resolving a dispute restores the account exactly as it was before the dispute. */
  lemma ResolveUndoesDispute(s: AccountState, id: TxId)
    requires s.CanDispute(id)
    ensures s.Disputed(id).Resolved(id) == s
  {
    var r := s.Disputed(id).Resolved(id);
    assert r.deposits == s.deposits;
  }

  /** A chargeback after a dispute leaves available funds as the dispute left them,
      releases nothing to the client and locks the account. */
  lemma ChargebackAfterDispute(s: AccountState, id: TxId)
    requires s.CanDispute(id)
    ensures var r := s.Disputed(id).ChargedBack(id);
      r.available == s.available - s.deposits[id].amount && r.held == s.held &&
      r.Total() == s.Total() - s.deposits[id].amount && r.locked
  {
  }

  /** A dispute only moves money from available to held: the total is unchanged. */
  lemma DisputeKeepsTotal(s: AccountState, id: TxId)
    ensures s.Disputed(id).Total() == s.Total()
  {
  }

  /** A resolve only moves money from held back to available: the total is unchanged. */
  lemma ResolveKeepsTotal(s: AccountState, id: TxId)
    ensures s.Resolved(id).Total() == s.Total()
  {
  }

  /** A deposit raises the total by its amount; a withdrawal lowers it by its amount or not at all;
      an effective chargeback lowers it by the disputed amount. */
  lemma TotalChanges(s: AccountState, id: TxId, amount: Amount)
    ensures s.Deposited(id, amount).Total() == s.Total() + amount
    ensures s.Withdrawn(amount).Total() in {s.Total(), s.Total() - amount}
    ensures s.UnderDispute(id) ==> s.ChargedBack(id).Total() == s.Total() - s.deposits[id].amount
    ensures !s.UnderDispute(id) ==> s.ChargedBack(id).Total() == s.Total()
  {
  }

  /** On the level of a whole record: a dispute or a resolve record never changes the total. */
  lemma ProcessedKeepsTotal(s: AccountState, line: InputLine)
    requires line.HasNeededAmount() && (line.kind.Dispute? || line.kind.Resolve?)
    ensures s.Processed(line).Total() == s.Total()
  {
  }

  /** The amount a stored deposit contributes to the held funds. */
  function HeldPart(t: Transaction): Amount {
    if t.disputed then t.amount else 0
  }

  /** The sum of the amounts of the disputed deposits among the ids `ks`. */
  ghost function HeldSum(m: map<TxId, Transaction>, ks: set<TxId>): Amount
    requires ks <= m.Keys
    decreases ks
  {
    if ks == {} then 0
    else
      var k :| k in ks;
      HeldPart(m[k]) + HeldSum(m, ks - {k})
  }

  /** The sum is the same whichever id is taken out first. */
  lemma {:induction false} HeldSumRemove(m: map<TxId, Transaction>, ks: set<TxId>, k: TxId)
    requires ks <= m.Keys && k in ks
    ensures HeldSum(m, ks) == HeldPart(m[k]) + HeldSum(m, ks - {k})
    decreases ks
  {
    var j :| j in ks && HeldSum(m, ks) == HeldPart(m[j]) + HeldSum(m, ks - {j});
    if j != k {
      HeldSumRemove(m, ks - {j}, k);
      HeldSumRemove(m, ks - {k}, j);
      assert ks - {j} - {k} == ks - {k} - {j};
    }
  }

  /** The sum over `ks` depends only on the entries for `ks`. */
  lemma {:induction false} HeldSumFrame(m: map<TxId, Transaction>, m': map<TxId, Transaction>, ks: set<TxId>)
    requires ks <= m.Keys && ks <= m'.Keys
    requires forall k :: k in ks ==> m[k] == m'[k]
    ensures HeldSum(m, ks) == HeldSum(m', ks)
    decreases ks
  {
    if ks != {} {
      var k :| k in ks;
      HeldSumRemove(m, ks, k);
      HeldSumRemove(m', ks, k);
      HeldSumFrame(m, m', ks - {k});
    }
  }

  /** The held funds that the stored deposits account for. */
  ghost function DisputedTotal(m: map<TxId, Transaction>): Amount {
    HeldSum(m, m.Keys)
  }

  /** Replacing one entry changes the disputed total by the difference of the two entries' parts. */
  lemma DisputedTotalUpdate(m: map<TxId, Transaction>, k: TxId, t: Transaction)
    ensures DisputedTotal(m[k := t]) == DisputedTotal(m) - (if k in m then HeldPart(m[k]) else 0) + HeldPart(t)
  {
    var m' := m[k := t];
    HeldSumRemove(m', m'.Keys, k);
    assert m'.Keys - {k} == m.Keys - {k};
    HeldSumFrame(m', m, m.Keys - {k});
    if k in m {
      HeldSumRemove(m, m.Keys, k);
    } else {
      assert m.Keys - {k} == m.Keys;
    }
  }

  /** The held funds are exactly the amounts of the deposits currently under dispute. */
  ghost predicate HeldConsistent(s: AccountState) {
    s.held == DisputedTotal(s.deposits)
  }

  /** A record that could break consistency: a deposit reusing the id of a deposit under dispute. */
  predicate OverwritesDispute(s: AccountState, line: InputLine) {
    line.kind.Deposit? && s.UnderDispute(line.id)
  }

  /** A dispute, resolve or chargeback names a stored deposit or does nothing: on an account
      without stored deposits each of them is a no-op. */
  lemma ClaimsNeedDeposits(s: AccountState, line: InputLine)
    requires s.deposits == map[] && !line.kind.CarriesAmount()
    ensures s.Processed(line) == s
  {
    assert !s.CanDispute(line.id) && !s.UnderDispute(line.id);
  }

  /** A new account reports zero available, held and total funds, unlocked, and a dispute,
      resolve or chargeback of any id leaves it as it is. */
  lemma DefaultAccountStatus(client: ClientId, line: InputLine)
    requires !line.kind.CarriesAmount()
    ensures DefaultAccount.Status(client) == AccountStatus(client, 0, 0, 0, false)
    ensures DefaultAccount.Processed(line) == DefaultAccount
  {
    var s := DefaultAccount;
    assert s.deposits == map[];
    ClaimsNeedDeposits(s, line);
  }

  lemma DefaultAccountConsistent()
    ensures HeldConsistent(DefaultAccount)
  {
  }

  /** Every record keeps the gap between the held funds and the disputed deposits as it was,
      unless it is a deposit whose id is that of a deposit under dispute. */
  lemma ProcessedKeepsHeldGap(s: AccountState, line: InputLine)
    requires line.HasNeededAmount() && !OverwritesDispute(s, line)
    ensures s.Processed(line).held - DisputedTotal(s.Processed(line).deposits) == s.held - DisputedTotal(s.deposits)
  {
    if !s.locked {
      match line.kind
      case Deposit =>
        DisputedTotalUpdate(s.deposits, line.id, Transaction.Deposit(line.amount.value));
      case Withdrawal =>
      case Dispute =>
        if s.CanDispute(line.id) {
          DisputedTotalUpdate(s.deposits, line.id, s.deposits[line.id].Dispute());
        }
      case Resolve =>
        if s.UnderDispute(line.id) {
          DisputedTotalUpdate(s.deposits, line.id, s.deposits[line.id].Undispute());
        }
      case Chargeback =>
        if s.UnderDispute(line.id) {
          DisputedTotalUpdate(s.deposits, line.id, s.deposits[line.id].Undispute());
        }
    }
  }

  /** Every record keeps the held funds equal to the disputed deposits, unless it is a
      deposit whose id is that of a deposit under dispute. */
  lemma ProcessedKeepsHeldConsistent(s: AccountState, line: InputLine)
    requires line.HasNeededAmount()
    requires HeldConsistent(s) && !OverwritesDispute(s, line)
    ensures HeldConsistent(s.Processed(line))
  {
    ProcessedKeepsHeldGap(s, line);
  }

  /** On an account holding the disputed deposit 1 of 5, a deposit reusing id 1 overwrites the
      record of the dispute while the 5 stay held: held then exceeds the disputed deposits by 5,
      a gap that no later record other than another such overwrite changes (`ProcessedKeepsHeldGap`). */
  lemma DepositOverDisputeStrandsHeld()
    ensures var s := DefaultAccount.Deposited(1, 5).Disputed(1);
      var line := InputLine(Deposit, 0, 1, Some(7));
      HeldConsistent(s) && !HeldConsistent(s.Processed(line)) &&
      s.Processed(line).held == 5 && !s.Processed(line).UnderDispute(1) &&
      s.Processed(line).held - DisputedTotal(s.Processed(line).deposits) == 5
  {
    var s := DefaultAccount.Deposited(1, 5).Disputed(1);
    assert s.deposits == map[1 := Transaction(5, true)];
    HeldSumRemove(s.deposits, s.deposits.Keys, 1);
    assert s.deposits.Keys - {1} == {};
    var r := s.Processed(InputLine(Deposit, 0, 1, Some(7)));
    assert r.deposits == map[1 := Transaction(7, false)];
    HeldSumRemove(r.deposits, r.deposits.Keys, 1);
    assert r.deposits.Keys - {1} == {};
  }
}
