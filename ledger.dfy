/** The engine: the accounts of all clients and the dispatch of each record to one of them. */
module Ledger {
  import opened Ids
  import opened Io
  import opened Transactions
  import opened Accounts

  /** The states of all tracked accounts, by client. */
  type Clients = map<ClientId, AccountState>

  /** What processing one record does to the accounts: an invalid record and a record other
      than a deposit for an unknown client are dropped; a deposit for an unknown client first
      creates the client's account; the record is then applied to its client's account. */
  function Step(m: Clients, line: InputLine): (r: Clients)
    // invalid records are dropped before any lookup
    ensures !line.Valid() ==> r == m
    // only a deposit can reach an unknown client
    ensures line.client !in m && !line.kind.Deposit? ==> r == m
    // no client is ever removed
    ensures m.Keys <= r.Keys
  {
    if !line.Valid() then m
    else if line.client in m || line.kind.Deposit? then m[line.client := Entry(m, line.client).Processed(line)]
    else m
  }

  /** The account of `client`, or a new default account when the client has none yet. */
  function Entry(m: Clients, client: ClientId): AccountState {
    if client in m then m[client] else DefaultAccount
  }

  /** Where the record reaches an account, the new accounts are the old ones with that account replaced. */
  lemma StepUnfold(m: Clients, line: InputLine)
    requires line.Valid() && (line.client in m || line.kind.Deposit?)
    ensures Step(m, line) == m[line.client := Entry(m, line.client).Processed(line)]
  {
  }

  /** Only a valid deposit adds a client, and then exactly its own. */
  lemma StepClients(m: Clients, line: InputLine)
    ensures Step(m, line).Keys == if line.Valid() && line.kind.Deposit? then m.Keys + {line.client} else m.Keys
  {
    if line.Valid() && (line.client in m || line.kind.Deposit?) {
      var a := Entry(m, line.client).Processed(line);
      assert Step(m, line) == m[line.client := a];
      assert m[line.client := a].Keys == m.Keys + {line.client};
    }
  }

  /** Processing a record never touches the account of another client. */
  lemma StepOthersUntouched(m: Clients, line: InputLine, c: ClientId)
    requires c in m && c != line.client
    ensures c in Step(m, line) && Step(m, line)[c] == m[c]
  {
  }

  /** A valid record for a known client is applied to that client's account. */
  lemma StepKnownClient(m: Clients, line: InputLine)
    requires line.Valid() && line.client in m
    ensures line.client in Step(m, line)
    ensures Step(m, line)[line.client] == m[line.client].Processed(line)
  {
  }

  /** A deposit for a new client creates an account that holds just that deposit. */
  lemma StepNewClient(m: Clients, line: InputLine)
    requires line.Valid() && line.kind.Deposit? && line.client !in m
    ensures line.client in Step(m, line)
    ensures var a := Step(m, line)[line.client];
      a.available == line.amount.value && a.held == 0 && !a.locked &&
      a.deposits == map[line.id := Transaction(line.amount.value, false)]
  {
  }

  /** The accounts after processing `lines` in order, starting from `m`. */
  function Replay(m: Clients, lines: seq<InputLine>): (r: Clients)
    // replaying never removes a client
    ensures m.Keys <= r.Keys
    decreases |lines|
  {
    if lines == [] then m else Step(Replay(m, lines[..|lines| - 1]), lines[|lines| - 1])
  }

  /** Replaying one more record is one more step. */
  lemma ReplaySnoc(m: Clients, lines: seq<InputLine>, line: InputLine)
    ensures Replay(m, lines + [line]) == Step(Replay(m, lines), line)
  {
    assert (lines + [line])[..|lines|] == lines;
  }

  /** The report of every tracked client: exactly one status per client. */
  function Report(m: Clients): (r: set<AccountStatus>)
    ensures forall c :: c in m ==> m[c].Status(c) in r
    ensures forall st :: st in r ==> st.client in m && st == m[st.client].Status(st.client)
  {
    set c | c in m :: m[c].Status(c)
  }

  /** The engine object, owning one account object per client. */
  class Engine {
    var accounts: map<ClientId, Account>

    /** Each client owns its account exclusively: no account object is shared. */
    ghost predicate Valid()
      reads this
    {
      forall c, d :: c in accounts && d in accounts && c != d ==> accounts[c] != accounts[d]
    }

    /** The states of the account objects, by client. */
    ghost function Snapshot(): Clients
      reads this, accounts.Values
    {
      map c | c in accounts :: accounts[c].State()
    }

    constructor ()
      ensures Valid() && accounts == map[] && Snapshot() == map[]
    {
      accounts := map[];
    }

    /** The account a valid record is routed to: the client's own, or, for a deposit to a new
        client, a new default account entered under that client; null when the record is dropped. */
    method AccountFor(line: InputLine) returns (account: Account?)
      requires Valid()
      modifies this
      ensures Valid()
      ensures account == null <==> line.client !in old(accounts) && !line.kind.Deposit?
      ensures account == null ==> accounts == old(accounts)
      ensures account != null ==> account in old(accounts.Values) || fresh(account)
      ensures account != null ==>
        accounts == old(accounts)[line.client := account] &&
        account.State() == Entry(old(Snapshot()), line.client) &&
        Snapshot() == old(Snapshot())[line.client := account.State()]
      ensures forall c :: c in old(accounts) ==> c in accounts && accounts[c] == old(accounts[c])
      ensures fresh(accounts.Values - old(accounts.Values))
    {
      if line.client in accounts {
        account := accounts[line.client];
      } else if line.kind.Deposit? {
        account := new Account();
        accounts := accounts[line.client := account];
      } else {
        account := null;
      }
    }

    /** Apply one record to the account of its client, leaving every other account as it was. */
    method ProcessAt(account: Account, line: InputLine, ghost base: Clients)
      requires Valid()
      requires line.HasNeededAmount()
      requires line.client in accounts && accounts[line.client] == account
      requires Snapshot() == base[line.client := account.State()]
      modifies account
      ensures Valid()
      ensures Snapshot() == base[line.client := old(account.State()).Processed(line)]
    {
      assert forall c :: c in accounts ==> c in old(Snapshot()) && (c == line.client || c in base);
      account.Process(line);
      forall c | c in accounts
        ensures accounts[c].State() == base[line.client := account.State()][c]
      {
        if c != line.client {
          assert accounts[c] != account;
          assert accounts[c].State() == old(Snapshot())[c];
        }
      }
    }

    /** Process one record in place. */
    method ProcessTransaction(line: InputLine)
      requires Valid()
      modifies this, accounts.Values
      ensures Valid()
      ensures Snapshot() == Step(old(Snapshot()), line)
      ensures forall c :: c in old(accounts) ==> c in accounts && accounts[c] == old(accounts[c])
      ensures fresh(accounts.Values - old(accounts.Values))
    {
      if !line.Valid() {
        return;
      }
      var account := AccountFor(line);
      if account == null {
        return;
      }
      ValidHasNeededAmount(line);
      ProcessAt(account, line, old(Snapshot()));
      StepUnfold(old(Snapshot()), line);
    }

    /** Process the records in their order. */
    method ProcessAll(lines: seq<InputLine>)
      requires Valid()
      modifies this, accounts.Values
      ensures Valid()
      ensures Snapshot() == Replay(old(Snapshot()), lines)
    {
      var i := 0;
      while i < |lines|
        invariant 0 <= i <= |lines|
        invariant Valid()
        invariant fresh(accounts.Values - old(accounts.Values))
        invariant Snapshot() == Replay(old(Snapshot()), lines[..i])
      {
        ProcessTransaction(lines[i]);
        assert lines[..i + 1] == lines[..i] + [lines[i]];
        ReplaySnoc(old(Snapshot()), lines[..i], lines[i]);
        i := i + 1;
      }
      assert lines[..i] == lines;
    }

    /** The report of every tracked client, built from the account objects' own status. */
    function Statuses(): (st: set<AccountStatus>)
      reads this, accounts.Values
      ensures st == Report(Snapshot())
    {
      var st := set c | c in accounts :: accounts[c].GetStatus(c);
      assert forall x :: x in Report(Snapshot()) ==> x in st by {
        forall x | x in Report(Snapshot()) ensures x in st {
          assert x == accounts[x.client].GetStatus(x.client);
        }
      }
      assert forall c :: c in accounts ==> accounts[c].GetStatus(c) == Snapshot()[c].Status(c);
      st
    }
  }

  /** Run a fresh engine over a stream of already-typed records and report every account. */
  method RunEngine(lines: seq<InputLine>) returns (report: set<AccountStatus>)
    ensures report == Report(Replay(map[], lines))
  {
    var engine := new Engine();
    engine.ProcessAll(lines);
    report := engine.Statuses();
  }
}
