/** The end-to-end scenarios of the engine's tests, with amounts in units of 1/10000. */
module Traces {
  import opened Ids
  import opened Io
  import opened Transactions
  import opened Accounts
  import opened Ledger
  import opened LedgerProperties

  const Start: Clients := map[]

  function Dep(client: ClientId, id: TxId, amount: Amount): InputLine {
    InputLine(Deposit, client, id, Some(amount))
  }

  function Wd(client: ClientId, id: TxId, amount: Amount): InputLine {
    InputLine(Withdrawal, client, id, Some(amount))
  }

  function Claim(kind: InputLineType, client: ClientId, id: TxId): InputLine {
    InputLine(kind, client, id, None)
  }

  /** An unlocked account with the given balances and stored deposits. */
  function Open(available: Amount, held: Amount, deposits: map<TxId, Transaction>): AccountState {
    AccountState(available, held, false, deposits)
  }

  /** One record applied to the account it reaches, with the resulting account given. */
  lemma Applies(m: Clients, line: InputLine, a: AccountState)
    requires line.Valid() && (line.client in m || line.kind.Deposit?)
    requires Entry(m, line.client).Processed(line) == a
    ensures Step(m, line) == m[line.client := a]
  {
    StepUnfold(m, line);
  }

  /** No records: no accounts and an empty report. */
  lemma NoRecords()
    ensures Replay(Start, []) == Start && Report(Replay(Start, [])) == {}
  {
  }

  /** Records without the amount their kind needs are all dropped: no account is created. */
  lemma MissingAmounts()
    ensures Replay(Start, [InputLine(Withdrawal, 2, 4, None), InputLine(Deposit, 1, 1, None), InputLine(Withdrawal, 1, 5, None)]) == Start
  {
    var lines := [InputLine(Withdrawal, 2, 4, None), InputLine(Deposit, 1, 1, None), InputLine(Withdrawal, 1, 5, None)];
    ReplayThrough(Start, lines, [Start, Start, Start, Start]);
  }

  /** A withdrawal for an unknown client creates nothing; a withdrawal above the available
      funds is ignored. */
  lemma UnknownClientAndOverdraft()
    ensures Replay(Start, [Wd(2, 4, 15000), Dep(1, 1, 35000), Wd(1, 5, 20000), Wd(1, 6, 20000)]) ==
      map[1 := Open(15000, 0, map[1 := Transaction(35000, false)])]
  {
    var lines := [Wd(2, 4, 15000), Dep(1, 1, 35000), Wd(1, 5, 20000), Wd(1, 6, 20000)];
    var a1 := Open(35000, 0, map[1 := Transaction(35000, false)]);
    var a2 := Open(15000, 0, map[1 := Transaction(35000, false)]);
    Applies(Start, lines[1], a1);
    Applies(map[1 := a1], lines[2], a2);
    Applies(map[1 := a2], lines[3], a2);
    ReplayThrough(Start, lines, [Start, Start, map[1 := a1], map[1 := a2], map[1 := a2]]);
  }

  const TwoClientsTrace: seq<InputLine> := [Dep(1, 1, 10000), Dep(2, 2, 20000), Dep(1, 3, 20000), Wd(1, 4, 15000), Wd(2, 5, 30000)]

  /** Deposits and withdrawals for two clients; the second client's overdraft is ignored. */
  lemma TwoClients()
    ensures Replay(Start, TwoClientsTrace) ==
      map[1 := Open(15000, 0, map[1 := Transaction(10000, false), 3 := Transaction(20000, false)]),
          2 := Open(20000, 0, map[2 := Transaction(20000, false)])]
  {
    var lines := TwoClientsTrace;
    var a1 := Open(10000, 0, map[1 := Transaction(10000, false)]);
    var b := Open(20000, 0, map[2 := Transaction(20000, false)]);
    var a2 := Open(30000, 0, map[1 := Transaction(10000, false), 3 := Transaction(20000, false)]);
    var a3 := Open(15000, 0, map[1 := Transaction(10000, false), 3 := Transaction(20000, false)]);
    Applies(Start, lines[0], a1);
    Applies(map[1 := a1], lines[1], b);
    Applies(map[1 := a1, 2 := b], lines[2], a2);
    Applies(map[1 := a2, 2 := b], lines[3], a3);
    Applies(map[1 := a3, 2 := b], lines[4], b);
    ReplayThrough(Start, lines, [Start, map[1 := a1], map[1 := a1, 2 := b], map[1 := a2, 2 := b], map[1 := a3, 2 := b], map[1 := a3, 2 := b]]);
  }

  /** A dispute of an id that was never stored is ignored. */
  lemma DisputeUnknownId()
    ensures Replay(Start, [Dep(1, 1, 35000), Claim(Dispute, 1, 3), Wd(1, 2, 20000)]) ==
      map[1 := Open(15000, 0, map[1 := Transaction(35000, false)])]
  {
    var lines := [Dep(1, 1, 35000), Claim(Dispute, 1, 3), Wd(1, 2, 20000)];
    var a1 := Open(35000, 0, map[1 := Transaction(35000, false)]);
    var a2 := Open(15000, 0, map[1 := Transaction(35000, false)]);
    Applies(Start, lines[0], a1);
    Applies(map[1 := a1], lines[1], a1);
    Applies(map[1 := a1], lines[2], a2);
    ReplayThrough(Start, lines, [Start, map[1 := a1], map[1 := a1], map[1 := a2]]);
  }

  /** A dispute naming another client's deposit is ignored: deposits are kept per account. */
  lemma DisputeOtherClientsDeposit()
    ensures Replay(Start, [Dep(1, 1, 35000), Dep(2, 2, 40000), Claim(Dispute, 1, 2), Wd(1, 2, 20000)]) ==
      map[1 := Open(15000, 0, map[1 := Transaction(35000, false)]), 2 := Open(40000, 0, map[2 := Transaction(40000, false)])]
  {
    var lines := [Dep(1, 1, 35000), Dep(2, 2, 40000), Claim(Dispute, 1, 2), Wd(1, 2, 20000)];
    var a1 := Open(35000, 0, map[1 := Transaction(35000, false)]);
    var b := Open(40000, 0, map[2 := Transaction(40000, false)]);
    var a2 := Open(15000, 0, map[1 := Transaction(35000, false)]);
    Applies(Start, lines[0], a1);
    Applies(map[1 := a1], lines[1], b);
    Applies(map[1 := a1, 2 := b], lines[2], a1);
    Applies(map[1 := a1, 2 := b], lines[3], a2);
    ReplayThrough(Start, lines, [Start, map[1 := a1], map[1 := a1, 2 := b], map[1 := a1, 2 := b], map[1 := a2, 2 := b]]);
  }

  /** A dispute naming a withdrawal is ignored: withdrawals are never stored. */
  lemma DisputeWithdrawal()
    ensures Replay(Start, [Dep(1, 1, 35000), Wd(1, 2, 20000), Claim(Dispute, 1, 2)]) ==
      map[1 := Open(15000, 0, map[1 := Transaction(35000, false)])]
  {
    var lines := [Dep(1, 1, 35000), Wd(1, 2, 20000), Claim(Dispute, 1, 2)];
    var a1 := Open(35000, 0, map[1 := Transaction(35000, false)]);
    var a2 := Open(15000, 0, map[1 := Transaction(35000, false)]);
    Applies(Start, lines[0], a1);
    Applies(map[1 := a1], lines[1], a2);
    Applies(map[1 := a2], lines[2], a2);
    ReplayThrough(Start, lines, [Start, map[1 := a1], map[1 := a2], map[1 := a2]]);
  }

  /** Disputing the same deposit twice holds its amount once. */
  lemma DisputeTwice()
    ensures Replay(Start, [Dep(1, 1, 35000), Claim(Dispute, 1, 1), Claim(Dispute, 1, 1)]) ==
      map[1 := Open(0, 35000, map[1 := Transaction(35000, true)])]
  {
    var lines := [Dep(1, 1, 35000), Claim(Dispute, 1, 1), Claim(Dispute, 1, 1)];
    var a1 := Open(35000, 0, map[1 := Transaction(35000, false)]);
    var a2 := Open(0, 35000, map[1 := Transaction(35000, true)]);
    Applies(Start, lines[0], a1);
    assert map[1 := Transaction(35000, false)][1 := Transaction(35000, true)] == a2.deposits;
    Applies(map[1 := a1], lines[1], a2);
    Applies(map[1 := a2], lines[2], a2);
    ReplayThrough(Start, lines, [Start, map[1 := a1], map[1 := a2], map[1 := a2]]);
  }

  /** A dispute that carries an amount is dropped: the result is that of the stream without it. */
  lemma DisputeWithAmountDropped()
    ensures Replay(Start, [Dep(1, 1, 35000), InputLine(Dispute, 1, 1, Some(40000))]) == Replay(Start, [Dep(1, 1, 35000)])
    ensures Replay(Start, [Dep(1, 1, 35000)]) == map[1 := Open(35000, 0, map[1 := Transaction(35000, false)])]
  {
    var a1 := Open(35000, 0, map[1 := Transaction(35000, false)]);
    Applies(Start, Dep(1, 1, 35000), a1);
    ReplayThrough(Start, [Dep(1, 1, 35000)], [Start, map[1 := a1]]);
    ReplayThrough(Start, [Dep(1, 1, 35000), InputLine(Dispute, 1, 1, Some(40000))], [Start, map[1 := a1], map[1 := a1]]);
  }

  /** Deposit 3, withdraw 2, dispute the deposit: available goes negative, the total stays 1. */
  const NegativeTrace: seq<InputLine> := [Dep(1, 1, 30000), Wd(1, 2, 20000), Claim(Dispute, 1, 1)]
  const NegativeState: AccountState := Open(-20000, 30000, map[1 := Transaction(30000, true)])

  lemma NegativeAvailable()
    ensures Replay(Start, NegativeTrace) == map[1 := NegativeState]
    ensures Report(Replay(Start, NegativeTrace)) == {AccountStatus(1, -20000, 30000, 10000, false)}
  {
    var lines := NegativeTrace;
    var a1 := Open(30000, 0, map[1 := Transaction(30000, false)]);
    var a2 := Open(10000, 0, map[1 := Transaction(30000, false)]);
    Applies(Start, lines[0], a1);
    Applies(map[1 := a1], lines[1], a2);
    assert map[1 := Transaction(30000, false)][1 := Transaction(30000, true)] == NegativeState.deposits;
    Applies(map[1 := a2], lines[2], NegativeState);
    ReplayThrough(Start, lines, [Start, map[1 := a1], map[1 := a2], map[1 := NegativeState]]);
  }

  /** A resolve that carries an amount is dropped: the dispute stays in force. */
  lemma ResolveWithAmountDropped()
    ensures Replay(Start, NegativeTrace + [InputLine(Resolve, 1, 1, Some(30000))]) == map[1 := NegativeState]
  {
    NegativeAvailable();
    ReplaySnoc(Start, NegativeTrace, InputLine(Resolve, 1, 1, Some(30000)));
  }

  /** A chargeback that carries an amount is dropped: the account stays unlocked. */
  lemma ChargebackWithAmountDropped()
    ensures Replay(Start, NegativeTrace + [InputLine(Chargeback, 1, 1, Some(30000))]) == map[1 := NegativeState]
  {
    NegativeAvailable();
    ReplaySnoc(Start, NegativeTrace, InputLine(Chargeback, 1, 1, Some(30000)));
  }

  /** A resolve gives the disputed amount back to the available funds. */
  lemma ValidResolve()
    ensures Replay(Start, NegativeTrace + [Claim(Resolve, 1, 1)]) == map[1 := Open(10000, 0, map[1 := Transaction(30000, false)])]
  {
    var a := Open(10000, 0, map[1 := Transaction(30000, false)]);
    NegativeAvailable();
    ReplaySnoc(Start, NegativeTrace, Claim(Resolve, 1, 1));
    assert NegativeState.deposits[1 := Transaction(30000, false)] == a.deposits;
    Applies(map[1 := NegativeState], Claim(Resolve, 1, 1), a);
  }

  const LockedState: AccountState := AccountState(-20000, 0, true, map[1 := Transaction(30000, false)])

  /** Charging back the disputed deposit empties held and locks the account. */
  lemma ChargebackAfterNegative()
    ensures Replay(Start, NegativeTrace + [Claim(Chargeback, 1, 1)]) == map[1 := LockedState]
  {
    NegativeAvailable();
    ReplaySnoc(Start, NegativeTrace, Claim(Chargeback, 1, 1));
    assert NegativeState.deposits[1 := Transaction(30000, false)] == LockedState.deposits;
    Applies(map[1 := NegativeState], Claim(Chargeback, 1, 1), LockedState);
  }

  const ChargebackTrace: seq<InputLine> := NegativeTrace + [Claim(Chargeback, 1, 1), Dep(2, 3, 1000000), Dep(1, 4, 1000000)]

  /** After the chargeback, a deposit to the locked client is ignored while another client's
      deposit applies. */
  lemma ChargebackLocks()
    ensures Replay(Start, ChargebackTrace) ==
      map[1 := LockedState, 2 := Open(1000000, 0, map[3 := Transaction(1000000, false)])]
  {
    var rest := [Dep(2, 3, 1000000), Dep(1, 4, 1000000)];
    var b := Open(1000000, 0, map[3 := Transaction(1000000, false)]);
    ChargebackAfterNegative();
    assert ChargebackTrace == (NegativeTrace + [Claim(Chargeback, 1, 1)]) + rest;
    ReplayAppend(Start, NegativeTrace + [Claim(Chargeback, 1, 1)], rest);
    Applies(map[1 := LockedState], rest[0], b);
    Applies(map[1 := LockedState, 2 := b], rest[1], LockedState);
    ReplayThrough(map[1 := LockedState], rest, [map[1 := LockedState], map[1 := LockedState, 2 := b], map[1 := LockedState, 2 := b]]);
  }

  /** The report after the chargeback trace: client 1 locked with a negative total. */
  lemma ChargebackLocksReport()
    ensures Report(Replay(Start, ChargebackTrace)) ==
      {AccountStatus(1, -20000, 0, -20000, true), AccountStatus(2, 1000000, 0, 1000000, false)}
  {
    ChargebackLocks();
    var m := Replay(Start, ChargebackTrace);
    assert m[1].Status(1) == AccountStatus(1, -20000, 0, -20000, true);
    assert m[2].Status(2) == AccountStatus(2, 1000000, 0, 1000000, false);
    var expected := {AccountStatus(1, -20000, 0, -20000, true), AccountStatus(2, 1000000, 0, 1000000, false)};
    assert forall st :: st in Report(m) ==> st in expected;
  }

  /** Order matters: a dispute before its deposit is dropped, one after it holds the funds. */
  lemma OrderMatters()
    ensures Replay(Start, [Claim(Dispute, 1, 1), Dep(1, 1, 30000)]) == map[1 := Open(30000, 0, map[1 := Transaction(30000, false)])]
    ensures Replay(Start, [Dep(1, 1, 30000), Claim(Dispute, 1, 1)]) == map[1 := Open(0, 30000, map[1 := Transaction(30000, true)])]
  {
    var d, p := Claim(Dispute, 1, 1), Dep(1, 1, 30000);
    var a1 := Open(30000, 0, map[1 := Transaction(30000, false)]);
    var a2 := Open(0, 30000, map[1 := Transaction(30000, true)]);
    Applies(Start, p, a1);
    assert a1.deposits[1 := Transaction(30000, true)] == a2.deposits;
    Applies(map[1 := a1], d, a2);
    ReplayThrough(Start, [d, p], [Start, Start, map[1 := a1]]);
    ReplayThrough(Start, [p, d], [Start, map[1 := a1], map[1 := a2]]);
  }
}
