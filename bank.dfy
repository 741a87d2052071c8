/** A minimal in-memory banking ledger: deposits and withdrawals applied to
    accounts, an append-only history of the operations that succeeded, a
    checking account that caps each withdrawal and the number of withdrawals,
    and clients that own accounts and drive transactions.

    Amounts are exact `real` numbers. The wall-clock timestamp of a history
    entry is an opaque `Stamp` supplied by the caller. */
module Bank {

  datatype Option<+T> = None | Some(value: T)

  /** Opaque timestamp text recorded with a history entry. */
  type Stamp = string

  /** The two transaction variants (the class name stored as `tipo`). */
  datatype Kind = Deposit | Withdrawal

  /** The outcome of a balance operation: acceptance, or the reason printed
      when it is rejected. */
  datatype Verdict =
    | Accepted
    | InvalidAmount
    | InsufficientFunds
    | OverOperationLimit
    | WithdrawalCountExceeded

  /** One record of the history: `{tipo, valor, data}`. */
  datatype Entry = Entry(kind: Kind, amount: real, stamp: Stamp)

  /** The limits of a checking account: the largest amount of one withdrawal
      and the number of recorded withdrawals after which none is allowed. */
  datatype Policy = Policy(perOperationLimit: real, withdrawalLimit: int)

  const DEFAULT_PER_OPERATION_LIMIT: real := 500.0
  const DEFAULT_WITHDRAWAL_LIMIT: int := 3

  /** The observable state of one account: its balance and its history. */
  datatype State = State(balance: real, entries: seq<Entry>)

  const INITIAL: State := State(0.0, [])

  // ---------------------------------------------------------------------
  // Pure decision logic

  /** The effect an accepted transaction of this kind has on the balance. */
  function Signed(kind: Kind, amount: real): real
  {
    match kind
    case Deposit => amount
    case Withdrawal => -amount
  }

  /** The number of `Withdrawal` entries in a history: the list comprehension
      that the checking account counts before each withdrawal. */
  function CountWithdrawals(entries: seq<Entry>): (n: nat)
    ensures n <= |entries|
    ensures n == 0 <==> forall i :: 0 <= i < |entries| ==> entries[i].kind != Withdrawal
  {
    if entries == [] then 0
    else
      var last := entries[|entries| - 1];
      CountWithdrawals(entries[..|entries| - 1]) + (if last.kind == Withdrawal then 1 else 0)
  }

  /** The net effect of a history on a balance: deposits minus withdrawals. */
  function Net(entries: seq<Entry>): real
  {
    if entries == [] then 0.0
    else
      var last := entries[|entries| - 1];
      Net(entries[..|entries| - 1]) + Signed(last.kind, last.amount)
  }

  /** The base account's deposit rule. */
  function DepositVerdict(amount: real): (v: Verdict)
    ensures v == Accepted <==> amount > 0.0
    ensures v != Accepted ==> v == InvalidAmount
  {
    if amount <= 0.0 then InvalidAmount else Accepted
  }

  /** The base account's withdrawal rule: a non-positive amount is invalid,
      an amount above the balance is refused for insufficient funds. */
  function BaseWithdrawVerdict(balance: real, amount: real): (v: Verdict)
    ensures v == Accepted <==> 0.0 < amount <= balance
    ensures v == InvalidAmount <==> amount <= 0.0
    ensures v == InsufficientFunds <==> 0.0 < amount && balance < amount
    ensures v == Accepted || v == InvalidAmount || v == InsufficientFunds
  {
    if amount <= 0.0 then InvalidAmount
    else if amount > balance then InsufficientFunds
    else Accepted
  }

  /** The withdrawal rule of an account with an optional checking policy:
      the per-operation cap is checked first, then the number of withdrawals
      recorded in the whole history, and only then the base rule. */
  function WithdrawVerdict(policy: Option<Policy>, s: State, amount: real): (v: Verdict)
    ensures policy.None? ==> v == BaseWithdrawVerdict(s.balance, amount)
    ensures policy.Some? && amount > policy.value.perOperationLimit ==> v == OverOperationLimit
    ensures policy.Some? && amount <= policy.value.perOperationLimit
            && CountWithdrawals(s.entries) >= policy.value.withdrawalLimit
            ==> v == WithdrawalCountExceeded
    ensures policy.Some? && amount <= policy.value.perOperationLimit
            && CountWithdrawals(s.entries) < policy.value.withdrawalLimit
            ==> v == BaseWithdrawVerdict(s.balance, amount)
    ensures v == Accepted <==>
            0.0 < amount <= s.balance &&
            (policy.Some? ==> amount <= policy.value.perOperationLimit
                              && CountWithdrawals(s.entries) < policy.value.withdrawalLimit)
  {
    match policy
    case None => BaseWithdrawVerdict(s.balance, amount)
    case Some(p) =>
      if amount > p.perOperationLimit then OverOperationLimit
      else if CountWithdrawals(s.entries) >= p.withdrawalLimit then WithdrawalCountExceeded
      else BaseWithdrawVerdict(s.balance, amount)
  }

  /** The verdict of the balance operation a transaction calls. */
  function TransactionVerdict(policy: Option<Policy>, s: State, t: Transaction): Verdict
  {
    match t.kind
    case Deposit => DepositVerdict(t.amount)
    case Withdrawal => WithdrawVerdict(policy, s, t.amount)
  }

  /** Registering a transaction: the balance operation, and an entry appended
      to the history exactly when that operation succeeds. */
  function Apply(policy: Option<Policy>, s: State, t: Transaction, stamp: Stamp): (r: State)
    ensures TransactionVerdict(policy, s, t) == Accepted ==>
              r.entries == s.entries + [Entry(t.kind, t.amount, stamp)]
    ensures TransactionVerdict(policy, s, t) != Accepted ==> r == s
    ensures s.balance >= 0.0 ==> r.balance >= 0.0
    ensures r.balance - Net(r.entries) == s.balance - Net(s.entries)
  {
    if TransactionVerdict(policy, s, t) == Accepted then
      var e := Entry(t.kind, t.amount, stamp);
      assert (s.entries + [e])[..|s.entries|] == s.entries;
      State(s.balance + Signed(t.kind, t.amount), s.entries + [e])
    else s
  }

  /** A transaction together with the time at which it is registered. */
  datatype Request = Request(tx: Transaction, stamp: Stamp)

  /** Registering a sequence of transactions, one after the other. */
  function Run(policy: Option<Policy>, s: State, reqs: seq<Request>): State
    decreases |reqs|
  {
    if reqs == [] then s
    else Run(policy, Apply(policy, s, reqs[0].tx, reqs[0].stamp), reqs[1..])
  }

  /** `first` is an initial segment of `whole`, kept unchanged and in order. */
  predicate IsPrefix(first: seq<Entry>, whole: seq<Entry>)
  {
    |first| <= |whole| && whole[..|first|] == first
  }

  /** What every entry a registration adds satisfies: a positive amount and,
      on a checking account, a withdrawal within the per-operation cap. */
  predicate Admissible(policy: Option<Policy>, e: Entry)
  {
    e.amount > 0.0 &&
    (policy.Some? && e.kind == Withdrawal ==> e.amount <= policy.value.perOperationLimit)
  }

  /** A Dafny value type standing for a `Deposito` or `Saque` object. */
  datatype Transaction = Transaction(kind: Kind, amount: real)
  {
    /** `registrar`: run the account's balance operation and record this
        transaction in the account's history when it succeeds. */
    method Register(account: Account, stamp: Stamp)
      requires account.Valid()
      modifies account, account.history
      ensures account.Valid()
      ensures account.Snapshot() == Apply(account.policy, old(account.Snapshot()), this, stamp)
    {
      match kind
      case Deposit =>
        var ok := account.Deposit(amount);
        if ok {
          account.history.Add(this, stamp);
        }
      case Withdrawal =>
        var ok := account.Withdraw(amount);
        if ok {
          account.history.Add(this, stamp);
        }
    }
  }

  // ---------------------------------------------------------------------
  // Mutable entities

  /** The append-only log of one account. */
  class History {
    var entries: seq<Entry>

    constructor ()
      ensures entries == []
    {
      entries := [];
    }

    /** Appends the record of `t`, keeping every earlier record in place. */
    method Add(t: Transaction, stamp: Stamp)
      modifies this
      ensures entries == old(entries) + [Entry(t.kind, t.amount, stamp)]
    {
      entries := entries + [Entry(t.kind, t.amount, stamp)];
    }
  }

  /** An account; with a policy it is a checking account. */
  class Account {
    var balance: real
    const number: int
    const branch: string
    const owner: Client
    const history: History
    const policy: Option<Policy>

    /** The object invariant: the balance is never negative. */
    ghost predicate Valid()
      reads this
    {
      balance >= 0.0
    }

    /** The account's observable state. */
    function Snapshot(): State
      reads this, history
    {
      State(balance, history.entries)
    }

    /** A plain account: balance 0, branch "0001", an empty history. */
    constructor (number: int, owner: Client)
      ensures Valid() && fresh(history)
      ensures Snapshot() == INITIAL
      ensures this.number == number && this.owner == owner && branch == "0001"
      ensures policy == None
    {
      balance := 0.0;
      this.number := number;
      branch := "0001";
      this.owner := owner;
      history := new History();
      policy := None;
    }

    /** A checking account, by default capped at 500 per withdrawal and
        three withdrawals in all. */
    constructor Checking(number: int, owner: Client,
                         perOperationLimit: real := DEFAULT_PER_OPERATION_LIMIT,
                         withdrawalLimit: int := DEFAULT_WITHDRAWAL_LIMIT)
      ensures Valid() && fresh(history)
      ensures Snapshot() == INITIAL
      ensures this.number == number && this.owner == owner && branch == "0001"
      ensures policy == Some(Policy(perOperationLimit, withdrawalLimit))
    {
      balance := 0.0;
      this.number := number;
      branch := "0001";
      this.owner := owner;
      history := new History();
      policy := Some(Policy(perOperationLimit, withdrawalLimit));
    }

    /** `depositar`: adds a positive amount, refuses any other. */
    method Deposit(amount: real) returns (ok: bool)
      requires Valid()
      modifies this
      ensures Valid()
      ensures ok <==> DepositVerdict(amount) == Accepted
      ensures balance == if ok then old(balance) + amount else old(balance)
    {
      if amount <= 0.0 {
        ok := false;
      } else {
        balance := balance + amount;
        ok := true;
      }
    }

    /** The base account's `sacar`. */
    method BaseWithdraw(amount: real) returns (ok: bool)
      requires Valid()
      modifies this
      ensures Valid()
      ensures ok <==> BaseWithdrawVerdict(old(balance), amount) == Accepted
      ensures balance == if ok then old(balance) - amount else old(balance)
    {
      var current := balance;
      if amount <= 0.0 {
        ok := false;
      } else if amount > current {
        ok := false;
      } else {
        balance := balance - amount;
        ok := true;
      }
    }

    /** `sacar` as dispatched on this account: the checking account's
        override when there is a policy, the base rule otherwise. */
    method Withdraw(amount: real) returns (ok: bool)
      requires Valid()
      modifies this
      ensures Valid()
      ensures ok <==> WithdrawVerdict(policy, old(Snapshot()), amount) == Accepted
      ensures balance == if ok then old(balance) - amount else old(balance)
    {
      match policy
      case None =>
        ok := BaseWithdraw(amount);
      case Some(p) =>
        var withdrawals := CountWithdrawals(history.entries);
        if amount > p.perOperationLimit {
          ok := false;
        } else if withdrawals >= p.withdrawalLimit {
          ok := false;
        } else {
          ok := BaseWithdraw(amount);
        }
    }
  }

  /** A client (a natural person, identified by `cpf`) and its accounts. */
  class Client {
    var address: string
    var accounts: seq<Account>
    const cpf: string
    const name: string
    const birthDate: string

    constructor (address: string, cpf: string, name: string, birthDate: string)
      ensures this.address == address && accounts == []
      ensures this.cpf == cpf && this.name == name && this.birthDate == birthDate
    {
      this.address := address;
      accounts := [];
      this.cpf := cpf;
      this.name := name;
      this.birthDate := birthDate;
    }

    /** `realizar_transacao`: delegates to the transaction's registration. */
    method PerformTransaction(account: Account, t: Transaction, stamp: Stamp)
      requires account.Valid()
      modifies account, account.history
      ensures account.Valid()
      ensures account.Snapshot() == Apply(account.policy, old(account.Snapshot()), t, stamp)
    {
      t.Register(account, stamp);
    }

    /** `adicionar_conta`: appends, with no uniqueness check and no limit. */
    method AddAccount(account: Account)
      modifies this
      ensures accounts == old(accounts) + [account]
      ensures address == old(address)
    {
      accounts := accounts + [account];
    }
  }

  // ---------------------------------------------------------------------
  // Client lookup

  /** The clients whose `cpf` equals the key (the list comprehension). The
      contract states which clients it holds and that its first element is
      the earliest match; it does not state the order of the later ones. */
  function Matching(cpf: string, clients: seq<Client>): (r: seq<Client>)
    ensures |r| <= |clients|
    ensures forall c :: c in r ==> c in clients && c.cpf == cpf
    ensures forall c :: c in clients && c.cpf == cpf ==> c in r
    ensures r != [] ==> exists i :: 0 <= i < |clients| && clients[i] == r[0] &&
                                    forall j :: 0 <= j < i ==> clients[j].cpf != cpf
    decreases |clients|
  {
    if clients == [] then []
    else
      var rest := Matching(cpf, clients[1..]);
      if clients[0].cpf == cpf then [clients[0]] + rest else rest
  }

  /** `filtrar_cliente`: the first client with the given `cpf`, if any. */
  function FindClient(cpf: string, clients: seq<Client>): (r: Option<Client>)
    ensures r.None? <==> forall c :: c in clients ==> c.cpf != cpf
    ensures r.Some? ==> r.value.cpf == cpf &&
                        exists i :: 0 <= i < |clients| && clients[i] == r.value &&
                                    forall j :: 0 <= j < i ==> clients[j].cpf != cpf
  {
    var matches := Matching(cpf, clients);
    if matches != [] then Some(matches[0]) else None
  }

  // ---------------------------------------------------------------------
  // Properties of the ledger

  /** Counting withdrawals distributes over concatenated histories. */
  lemma {:induction false} CountWithdrawalsConcat(a: seq<Entry>, b: seq<Entry>)
    ensures CountWithdrawals(a + b) == CountWithdrawals(a) + CountWithdrawals(b)
    decreases |b|
  {
    if b != [] {
      var b' := b[..|b| - 1];
      assert (a + b)[..|a + b| - 1] == a + b';
      CountWithdrawalsConcat(a, b');
    } else {
      assert a + b == a;
    }
  }

  /** Registering one transaction adds one withdrawal to the count exactly
      when it is an accepted withdrawal. */
  lemma ApplyCountsWithdrawals(policy: Option<Policy>, s: State, t: Transaction, stamp: Stamp)
    ensures CountWithdrawals(Apply(policy, s, t, stamp).entries) ==
            CountWithdrawals(s.entries) +
            (if TransactionVerdict(policy, s, t) == Accepted && t.kind == Withdrawal then 1 else 0)
  {
    if TransactionVerdict(policy, s, t) == Accepted {
      var e := Entry(t.kind, t.amount, stamp);
      CountWithdrawalsConcat(s.entries, [e]);
      assert [e][..0] == [];
    }
  }

  /** Starting from a non-negative balance, no sequence of transactions makes
      the balance negative. */
  lemma {:induction false} RunKeepsBalanceNonNegative(policy: Option<Policy>, s: State, reqs: seq<Request>)
    requires s.balance >= 0.0
    ensures Run(policy, s, reqs).balance >= 0.0
    decreases |reqs|
  {
    if reqs != [] {
      RunKeepsBalanceNonNegative(policy, Apply(policy, s, reqs[0].tx, reqs[0].stamp), reqs[1..]);
    }
  }

  /** The history only grows: what was recorded stays recorded, in order. */
  lemma {:induction false} RunIsAppendOnly(policy: Option<Policy>, s: State, reqs: seq<Request>)
    ensures IsPrefix(s.entries, Run(policy, s, reqs).entries)
    decreases |reqs|
  {
    if reqs != [] {
      var s' := Apply(policy, s, reqs[0].tx, reqs[0].stamp);
      assert IsPrefix(s.entries, s'.entries) by {
        if s' != s {
          assert s'.entries[..|s.entries|] == s.entries;
        }
      }
      RunIsAppendOnly(policy, s', reqs[1..]);
      var r := Run(policy, s', reqs[1..]);
      assert r.entries[..|s'.entries|][..|s.entries|] == r.entries[..|s.entries|];
    }
  }

  /** Balance and history change together: an account whose balance agrees
      with the net of its history keeps agreeing, whatever is registered. */
  lemma {:induction false} RunKeepsLedgerBalanced(policy: Option<Policy>, s: State, reqs: seq<Request>)
    requires s.balance == Net(s.entries)
    ensures Run(policy, s, reqs).balance == Net(Run(policy, s, reqs).entries)
    decreases |reqs|
  {
    if reqs != [] {
      RunKeepsLedgerBalanced(policy, Apply(policy, s, reqs[0].tx, reqs[0].stamp), reqs[1..]);
    }
  }

  /** A checking account never records more withdrawals than its limit. */
  lemma {:induction false} RunRespectsWithdrawalLimit(p: Policy, s: State, reqs: seq<Request>)
    requires CountWithdrawals(s.entries) <= p.withdrawalLimit
    ensures CountWithdrawals(Run(Some(p), s, reqs).entries) <= p.withdrawalLimit
    decreases |reqs|
  {
    if reqs != [] {
      ApplyCountsWithdrawals(Some(p), s, reqs[0].tx, reqs[0].stamp);
      RunRespectsWithdrawalLimit(p, Apply(Some(p), s, reqs[0].tx, reqs[0].stamp), reqs[1..]);
    }
  }

  /** Every entry a sequence of registrations adds has a positive amount and,
      on a checking account, respects the per-operation cap. */
  lemma {:induction false} RunAddsOnlyAdmissibleEntries(policy: Option<Policy>, s: State, reqs: seq<Request>)
    ensures forall i :: |s.entries| <= i < |Run(policy, s, reqs).entries| ==>
              Admissible(policy, Run(policy, s, reqs).entries[i])
    decreases |reqs|
  {
    if reqs != [] {
      var s' := Apply(policy, s, reqs[0].tx, reqs[0].stamp);
      RunAddsOnlyAdmissibleEntries(policy, s', reqs[1..]);
      RunIsAppendOnly(policy, s', reqs[1..]);
      var r := Run(policy, s', reqs[1..]);
      if s' != s {
        assert r.entries[|s.entries|] == r.entries[..|s'.entries|][|s.entries|];
      }
    }
  }

  /** From a fresh account, the whole history is admissible, the balance is
      the net of the history and never negative. */
  lemma RunFromOpening(policy: Option<Policy>, reqs: seq<Request>)
    ensures var r := Run(policy, INITIAL, reqs);
            r.balance >= 0.0 && r.balance == Net(r.entries) &&
            forall i :: 0 <= i < |r.entries| ==> Admissible(policy, r.entries[i])
  {
    RunKeepsBalanceNonNegative(policy, INITIAL, reqs);
    RunKeepsLedgerBalanced(policy, INITIAL, reqs);
    RunAddsOnlyAdmissibleEntries(policy, INITIAL, reqs);
  }

  /** One withdrawal that a checking account accepts. */
  lemma AcceptedWithdrawal(p: Policy, s: State, amount: real, stamp: Stamp)
    requires 0.0 < amount <= s.balance && amount <= p.perOperationLimit
    requires CountWithdrawals(s.entries) < p.withdrawalLimit
    ensures Apply(Some(p), s, Transaction(Withdrawal, amount), stamp) ==
            State(s.balance - amount, s.entries + [Entry(Withdrawal, amount, stamp)])
  {
  }

  /** With the default limits, four withdrawals of 100 from a balance of 1000:
      the first three succeed, the fourth is refused for the count. */
  lemma DefaultCountCap(stamp: Stamp)
    ensures var p := Some(Policy(DEFAULT_PER_OPERATION_LIMIT, DEFAULT_WITHDRAWAL_LIMIT));
            var w := Transaction(Withdrawal, 100.0);
            var s0 := State(1000.0, []);
            var s3 := Apply(p, Apply(p, Apply(p, s0, w, stamp), w, stamp), w, stamp);
            s3.balance == 700.0 && |s3.entries| == 3 &&
            WithdrawVerdict(p, s3, 100.0) == WithdrawalCountExceeded &&
            Apply(p, s3, w, stamp) == s3
  {
    var p := Policy(DEFAULT_PER_OPERATION_LIMIT, DEFAULT_WITHDRAWAL_LIMIT);
    var e := Entry(Withdrawal, 100.0, stamp);
    AcceptedWithdrawal(p, State(1000.0, []), 100.0, stamp);
    assert [] + [e] == [e];
    assert CountWithdrawals([e]) == 1 by { assert [e][..0] == []; }
    AcceptedWithdrawal(p, State(900.0, [e]), 100.0, stamp);
    assert CountWithdrawals([e, e]) == 2 by { assert [e, e][..1] == [e]; }
    AcceptedWithdrawal(p, State(800.0, [e, e]), 100.0, stamp);
    assert CountWithdrawals([e, e, e]) == 3 by { assert [e, e, e][..2] == [e, e]; }
  }

  /** The opening scenario on a checking account: deposits and withdrawals
      through the client, observed on the balance and the history. */
  method CheckingAccountScenario()
  {
    var client := new Client("Rua A - 1 - Centro - Cidade/UF", "12345678900", "Maria", "01-01-1990");
    var account := new Account.Checking(1, client);
    client.AddAccount(account);
    assert FindClient("12345678900", [client]) == Some(client);

    client.PerformTransaction(account, Transaction(Deposit, 200.0), "t1");
    assert account.balance == 200.0 && |account.history.entries| == 1;
    client.PerformTransaction(account, Transaction(Withdrawal, 50.0), "t2");
    assert account.balance == 150.0 && |account.history.entries| == 2;
    client.PerformTransaction(account, Transaction(Withdrawal, -10.0), "t3");
    assert account.balance == 150.0 && |account.history.entries| == 2;
    client.PerformTransaction(account, Transaction(Withdrawal, 600.0), "t4");
    assert account.balance == 150.0 && |account.history.entries| == 2;
    assert account.history.entries ==
      [Entry(Deposit, 200.0, "t1"), Entry(Withdrawal, 50.0, "t2")];
  }
}
