/** Properties of replaying a whole stream of records through the engine. */
module LedgerProperties {
  import opened Ids
  import opened Io
  import opened Transactions
  import opened Accounts
  import opened AccountProperties
  import opened Ledger

  /** The entry of a client with no account is a zeroed, unlocked account that reports nothing
      and can dispute nothing. */
  lemma EntryOfNewClient(m: Clients, client: ClientId)
    requires client !in m
    ensures Entry(m, client).deposits == map[]
    ensures Entry(m, client).Status(client) == AccountStatus(client, 0, 0, 0, false)
  {
    var a := Entry(m, client);
    assert a.deposits == map[];
    assert a.available == 0 && a.held == 0 && !a.locked;
  }

  /** Replaying two streams one after the other is replaying their concatenation. */
  lemma {:induction false} ReplayAppend(m: Clients, a: seq<InputLine>, b: seq<InputLine>)
    ensures Replay(m, a + b) == Replay(Replay(m, a), b)
    decreases |b|
  {
    if b == [] {
      assert a + b == a;
    } else {
      var init, last := b[..|b| - 1], b[|b| - 1];
      assert b == init + [last];
      assert a + b == (a + init) + [last];
      ReplaySnoc(m, a + init, last);
      ReplayAppend(m, a, init);
      ReplaySnoc(Replay(m, a), init, last);
    }
  }

  /** Replaying a stream is taking its first step and replaying the rest. */
  lemma ReplayCons(m: Clients, line: InputLine, lines: seq<InputLine>)
    ensures Replay(m, [line] + lines) == Replay(Step(m, line), lines)
  {
    ReplayAppend(m, [line], lines);
    assert [line][..0] == [];
  }

  /** Replaying a stream passes through the given states when each record takes one to the next. */
  lemma {:induction false} ReplayThrough(m: Clients, lines: seq<InputLine>, states: seq<Clients>)
    requires |states| == |lines| + 1 && states[0] == m
    requires forall i :: 0 <= i < |lines| ==> Step(states[i], lines[i]) == states[i + 1]
    ensures Replay(m, lines) == states[|lines|]
    decreases |lines|
  {
    if lines != [] {
      ReplayThrough(m, lines[..|lines| - 1], states[..|lines|]);
    }
  }

  /** The set of tracked clients only grows, and every client it gains is the client of a
      valid deposit of the stream. */
  lemma {:induction false} ReplayClientsGrow(m: Clients, lines: seq<InputLine>)
    ensures m.Keys <= Replay(m, lines).Keys
    ensures forall c :: c in Replay(m, lines) && c !in m ==>
      exists i :: 0 <= i < |lines| && lines[i].client == c && lines[i].Valid() && lines[i].kind.Deposit?
    decreases |lines|
  {
    if lines != [] {
      var init, last := lines[..|lines| - 1], lines[|lines| - 1];
      ReplayClientsGrow(m, init);
      StepClients(Replay(m, init), last);
      forall c | c in Replay(m, lines) && c !in m
        ensures exists i :: 0 <= i < |lines| && lines[i].client == c && lines[i].Valid() && lines[i].kind.Deposit?
      {
        if c in Replay(m, init) {
          var i :| 0 <= i < |init| && init[i].client == c && init[i].Valid() && init[i].kind.Deposit?;
          assert lines[i] == init[i];
        } else {
          assert lines[|lines| - 1] == last;
        }
      }
    }
  }

  /** Conversely, the client of every valid deposit of the stream is tracked after the replay. */
  lemma {:induction false} DepositClientsTracked(m: Clients, lines: seq<InputLine>, i: nat)
    requires i < |lines| && lines[i].Valid() && lines[i].kind.Deposit?
    ensures lines[i].client in Replay(m, lines)
    decreases |lines|
  {
    var init, last := lines[..|lines| - 1], lines[|lines| - 1];
    StepClients(Replay(m, init), last);
    if i < |lines| - 1 {
      assert init[i] == lines[i];
      DepositClientsTracked(m, init, i);
    }
  }

  /** A client that no record of the stream addresses keeps its account, or keeps having none. */
  lemma {:induction false} ReplayOthersUntouched(m: Clients, lines: seq<InputLine>, c: ClientId)
    requires forall i :: 0 <= i < |lines| ==> lines[i].client != c
    ensures c in Replay(m, lines) <==> c in m
    ensures c in m ==> Replay(m, lines)[c] == m[c]
    decreases |lines|
  {
    if lines != [] {
      var init, last := lines[..|lines| - 1], lines[|lines| - 1];
      assert forall i :: 0 <= i < |init| ==> init[i] == lines[i];
      ReplayOthersUntouched(m, init, c);
      StepClients(Replay(m, init), last);
      if c in m {
        StepOthersUntouched(Replay(m, init), last, c);
      }
    }
  }

  /** Lock finality: once a client's account is locked, no later record changes it. */
  lemma {:induction false} ReplayLockedFrozen(m: Clients, lines: seq<InputLine>, c: ClientId)
    requires c in m && m[c].locked
    ensures c in Replay(m, lines) && Replay(m, lines)[c] == m[c]
    decreases |lines|
  {
    if lines != [] {
      var init, last := lines[..|lines| - 1], lines[|lines| - 1];
      ReplayLockedFrozen(m, init, c);
      var r := Replay(m, init);
      if c == last.client {
        if last.Valid() {
          StepKnownClient(r, last);
        }
      } else {
        StepOthersUntouched(r, last, c);
      }
    }
  }

  /** The valid records of a stream, in their order. */
  function ValidOnly(lines: seq<InputLine>): (v: seq<InputLine>)
    ensures |v| <= |lines|
    ensures forall i :: 0 <= i < |v| ==> v[i].Valid()
    ensures forall x :: x in v <==> x in lines && x.Valid()
    decreases |lines|
  {
    if lines == [] then []
    else
      var last := lines[|lines| - 1];
      assert lines == lines[..|lines| - 1] + [last];
      ValidOnly(lines[..|lines| - 1]) + (if last.Valid() then [last] else [])
  }

  /** Invalid records are dropped: the result is that of the stream without them. */
  lemma {:induction false} ReplayDropsInvalid(m: Clients, lines: seq<InputLine>)
    ensures Replay(m, lines) == Replay(m, ValidOnly(lines))
    decreases |lines|
  {
    if lines != [] {
      var init, last := lines[..|lines| - 1], lines[|lines| - 1];
      ReplayDropsInvalid(m, init);
      if last.Valid() {
        ReplaySnoc(m, ValidOnly(init), last);
      } else {
        assert ValidOnly(lines) == ValidOnly(init);
      }
    }
  }

  /** The transaction ids stored in any account. */
  ghost function StoredIds(m: Clients): set<TxId> {
    set c, id | c in m && id in m[c].deposits :: id
  }

  /** The transaction ids of the deposits of a stream. */
  ghost function DepositIds(lines: seq<InputLine>): set<TxId> {
    set i | 0 <= i < |lines| && lines[i].kind.Deposit? :: lines[i].id
  }

  /** The ids stored across all accounts grow at most by the record's id, when it is a deposit. */
  lemma StepStoredIds(m: Clients, line: InputLine)
    ensures StoredIds(Step(m, line)) <= StoredIds(m) + (if line.kind.Deposit? then {line.id} else {})
  {
    var r := Step(m, line);
    StepClients(m, line);
    forall id | id in StoredIds(r)
      ensures id in StoredIds(m) || (line.kind.Deposit? && id == line.id)
    {
      var c :| c in r && id in r[c].deposits;
      if c != line.client {
        StepOthersUntouched(m, line, c);
      } else if line.Valid() && line.client in m {
        StepKnownClient(m, line);
      } else if line.Valid() && line.kind.Deposit? {
        StepNewClient(m, line);
      }
    }
  }

  /** Each account only ever gains the id of a deposit sent to it: no id moves between accounts. */
  lemma StepStoredIdsPerAccount(m: Clients, line: InputLine, c: ClientId)
    requires c in Step(m, line)
    ensures Step(m, line)[c].deposits.Keys <=
      (if c in m then m[c].deposits.Keys else {}) + (if line.kind.Deposit? && line.client == c then {line.id} else {})
  {
    StepClients(m, line);
    if c != line.client {
      StepOthersUntouched(m, line, c);
    } else if line.Valid() && line.client in m {
      StepKnownClient(m, line);
    } else if line.Valid() && line.kind.Deposit? {
      StepNewClient(m, line);
    }
  }

  /** The ids stored across all accounts after a replay were stored before or are deposit ids of the stream. */
  lemma {:induction false} ReplayStoredIds(m: Clients, lines: seq<InputLine>)
    ensures StoredIds(Replay(m, lines)) <= StoredIds(m) + DepositIds(lines)
    decreases |lines|
  {
    if lines != [] {
      var init, last := lines[..|lines| - 1], lines[|lines| - 1];
      ReplayStoredIds(m, init);
      StepStoredIds(Replay(m, init), last);
      assert DepositIds(init) <= DepositIds(lines) by {
        forall id | id in DepositIds(init) ensures id in DepositIds(lines) {
          var i :| 0 <= i < |init| && init[i].kind.Deposit? && init[i].id == id;
          assert lines[i] == init[i];
        }
      }
      if last.kind.Deposit? {
        assert lines[|lines| - 1] == last;
      }
    }
  }

  /** Every account's held funds are exactly its deposits under dispute. */
  ghost predicate AllHeldConsistent(m: Clients) {
    forall c :: c in m ==> HeldConsistent(m[c])
  }

  /** Transaction ids unique across the stream: no deposit reuses an id already stored or
      the id of an earlier deposit. */
  ghost predicate UniqueDeposits(m: Clients, lines: seq<InputLine>) {
    forall i :: 0 <= i < |lines| && lines[i].kind.Deposit? ==>
      lines[i].id !in StoredIds(m) &&
      forall j :: 0 <= j < i && lines[j].kind.Deposit? ==> lines[j].id != lines[i].id
  }

  lemma StepKeepsHeldConsistent(m: Clients, line: InputLine)
    requires AllHeldConsistent(m)
    requires line.client in m ==> !OverwritesDispute(m[line.client], line)
    ensures AllHeldConsistent(Step(m, line))
  {
    var r := Step(m, line);
    StepClients(m, line);
    forall c | c in r ensures HeldConsistent(r[c]) {
      if c != line.client {
        StepOthersUntouched(m, line, c);
      } else if line.Valid() && line.client in m {
        StepKnownClient(m, line);
        ProcessedKeepsHeldConsistent(m[c], line);
      } else if line.Valid() && line.kind.Deposit? {
        DefaultAccountConsistent();
        StepUnfold(m, line);
        ProcessedKeepsHeldConsistent(DefaultAccount, line);
      }
    }
  }

  /** With unique transaction ids, the held funds of every account stay exactly the amounts
      of its deposits under dispute, all along the stream. */
  lemma {:induction false} ReplayKeepsHeldConsistent(m: Clients, lines: seq<InputLine>)
    requires AllHeldConsistent(m) && UniqueDeposits(m, lines)
    ensures AllHeldConsistent(Replay(m, lines))
    decreases |lines|
  {
    if lines != [] {
      var init, last := lines[..|lines| - 1], lines[|lines| - 1];
      assert UniqueDeposits(m, init) by {
        forall i | 0 <= i < |init| ensures init[i] == lines[i] { }
      }
      ReplayKeepsHeldConsistent(m, init);
      var r := Replay(m, init);
      if last.kind.Deposit? && last.client in r {
        ReplayStoredIds(m, init);
        assert last == lines[|lines| - 1];
        assert last.id !in DepositIds(init) by {
          forall i | 0 <= i < |init| && init[i].kind.Deposit? ensures init[i].id != last.id {
            assert lines[i] == init[i];
          }
        }
        assert last.id !in StoredIds(r);
      }
      StepKeepsHeldConsistent(r, last);
    }
  }
}
