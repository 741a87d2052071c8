# Bank ledger model

This project models a small in-memory banking ledger, written in Python as the classes `Transacao`, `Deposito`, `Saque`, `Historico`, `Conta`, `Conta_Corrente`, `Cliente` and `Pessoa_fisica`, plus the lookup `filtrar_cliente`. Everything is in one Dafny module, `Bank`, in `bank.dfy`.

- A transaction is either a deposit (`Deposito`) or a withdrawal (`Saque`). Registering one calls the account's balance operation. The transaction is added to the account's history only when that operation returns `True`.
- The history (`Historico`) is an append-only list of `{tipo, valor, data}` records, modelled as `Entry(kind, amount, stamp)`.
- An account (`Conta`) starts with balance 0 and belongs to branch `"0001"`. A deposit accepts only positive amounts. A withdrawal accepts only positive amounts no larger than the balance.
- A checking account (`Conta_Corrente`) is an `Account` whose `policy` is `Some(Policy(perOperationLimit, withdrawalLimit))`. The defaults are 500 and 3. Before the base rule, its withdrawal checks two things, in this order:
  - the amount is not above the per-operation cap;
  - the number of `Saque` records is below the limit. This counts the whole history, not only today's records, even though the source calls it a daily limit.
- A client holds its accounts in order and delegates transactions to them. `filtrar_cliente` returns the first client with a given `cpf`.

How the model is built:
- The pure decision logic is written as functions: `DepositVerdict`, `BaseWithdrawVerdict`, `WithdrawVerdict` and `TransactionVerdict`. Each returns `Accepted` or the rejection that the source reports with a printed message.
- `Apply` is the reference semantics of one registration, over `State(balance, entries)`. `Run` folds `Apply` over a sequence of registrations.
- The classes `History`, `Account` and `Client` keep their state in fields that their methods update in place. Every mutating method ties the new state to the specification functions. For example, `Transaction.Register` ensures `account.Snapshot() == Apply(account.policy, old(account.Snapshot()), this, stamp)`.
- `Account.Valid()` is the object invariant `balance >= 0`. The constructors establish it and every method keeps it.
- `Net(entries)` (deposits minus withdrawals) is an independent reference for the balance. The lemmas prove that, for an account opened at zero, the balance equals `Net` of the history whenever every change goes through a registration (`Transaction.Register` or `Client.PerformTransaction`). `Account.Deposit`, `Account.Withdraw` and `Account.BaseWithdraw` are public, as `depositar` and `sacar` are in the source. Called directly, they change the balance without adding an entry.

## Model

| member | source | states |
|---|---|---|
| `Bank.DepositVerdict` | DIO-desafio_sistema_bancario_POO.py:115-124 | a deposit is accepted exactly when the amount is positive; every other amount is rejected as an invalid amount |
| `Bank.BaseWithdrawVerdict` | DIO-desafio_sistema_bancario_POO.py:96-113 | the base withdrawal is accepted exactly when 0 < amount <= balance; it is rejected as invalid exactly when amount <= 0, and for insufficient funds exactly when the amount is positive and above the balance |
| `Bank.CountWithdrawals` | DIO-desafio_sistema_bancario_POO.py:134 | the number of withdrawal records is at most the history length, and it is zero exactly when the history holds no withdrawal |
| `Bank.WithdrawVerdict` | DIO-desafio_sistema_bancario_POO.py:132-147 | without a policy it is the base rule; with one, an amount above the cap is refused whatever the balance, then a withdrawal count at or above the limit is refused, and otherwise the base rule decides; acceptance holds exactly when 0 < amount <= balance, amount <= cap and count < limit |
| `Bank.Apply` | DIO-desafio_sistema_bancario_POO.py:26-41 | an accepted transaction appends exactly one entry, with its own kind and amount, after all earlier entries; a rejected one changes nothing; a non-negative balance stays non-negative; balance and history move by the same signed amount |
| `Bank.Transaction.Register` | DIO-desafio_sistema_bancario_POO.py:26-41 | `registrar` for both variants: the account's new balance and history are what `Apply` gives from the old ones, and the balance invariant is kept |
| `Bank.History.constructor` | DIO-desafio_sistema_bancario_POO.py:45-46 | a new history is empty |
| `Bank.History.Add` | DIO-desafio_sistema_bancario_POO.py:52-60 | `adicionar_transacao` appends the record of the transaction's kind, amount and stamp after the unchanged earlier records |
| `Bank.Account.constructor` | DIO-desafio_sistema_bancario_POO.py:63-68 | a new account has balance 0, an empty fresh history, branch "0001", the given number and owner, and no checking policy |
| `Bank.Account.Checking` | DIO-desafio_sistema_bancario_POO.py:127-130 | a new checking account is a new account whose policy holds the given limits, 500 and 3 by default |
| `Bank.Account.Deposit` | DIO-desafio_sistema_bancario_POO.py:115-124 | `depositar` returns True exactly when the deposit rule accepts the amount, and then adds it to the balance; otherwise the balance is unchanged |
| `Bank.Account.BaseWithdraw` | DIO-desafio_sistema_bancario_POO.py:96-113 | `Conta.sacar` returns True exactly when the base rule accepts the amount, and then subtracts it; otherwise the balance is unchanged; the balance stays non-negative |
| `Bank.Account.Withdraw` | DIO-desafio_sistema_bancario_POO.py:132-147 | the `sacar` dispatched on the account returns True exactly when `WithdrawVerdict` accepts for the current balance and history; the balance changes only then, by the amount |
| `Bank.Client.constructor` | DIO-desafio_sistema_bancario_POO.py:157-173 | a new client has the given address, cpf, name and birth date, and no accounts |
| `Bank.Client.PerformTransaction` | DIO-desafio_sistema_bancario_POO.py:161-162 | `realizar_transacao` has exactly the effect of registering the transaction on the account |
| `Bank.Client.AddAccount` | DIO-desafio_sistema_bancario_POO.py:164-165 | `adicionar_conta` appends the account after the existing ones, with no uniqueness check |
| `Bank.Matching` | DIO-desafio_sistema_bancario_POO.py:201 | the comprehension keeps exactly the clients whose cpf equals the key; its first element is the earliest such client in the list |
| `Bank.FindClient` | DIO-desafio_sistema_bancario_POO.py:200-202 | None exactly when no client has the key; otherwise a client with that cpf such that no client before it has the key |
| `Bank.CountWithdrawalsConcat` | DIO-desafio_sistema_bancario_POO.py:134 | the withdrawal count of two histories joined is the sum of their counts |
| `Bank.ApplyCountsWithdrawals` | DIO-desafio_sistema_bancario_POO.py:38-41 | one registration raises the withdrawal count by one exactly when it is an accepted withdrawal |
| `Bank.RunKeepsBalanceNonNegative` | DIO-desafio_sistema_bancario_POO.py:96-124 | from a non-negative balance, no sequence of deposits and withdrawals makes the balance negative |
| `Bank.RunIsAppendOnly` | DIO-desafio_sistema_bancario_POO.py:52-60 | after any sequence of registrations, the earlier history is still an unchanged prefix of the history |
| `Bank.RunKeepsLedgerBalanced` | DIO-desafio_sistema_bancario_POO.py:26-41 | if the balance equals deposits minus withdrawals of the history, it still does after any sequence of registrations |
| `Bank.RunRespectsWithdrawalLimit` | DIO-desafio_sistema_bancario_POO.py:134-145 | a checking account whose count is within its limit never records more withdrawals than the limit |
| `Bank.RunAddsOnlyAdmissibleEntries` | DIO-desafio_sistema_bancario_POO.py:117-145 | every entry added has a positive amount, and on a checking account every added withdrawal is within the per-operation cap |
| `Bank.RunFromOpening` | DIO-desafio_sistema_bancario_POO.py:64 | for an account opened at balance 0, after any sequence of registrations, the balance is non-negative, equals the net of the history, and every entry is admissible |
| `Bank.AcceptedWithdrawal` | DIO-desafio_sistema_bancario_POO.py:138-145 | a checking-account withdrawal that is positive, within balance, cap and count is recorded as one withdrawal entry and lowers the balance by its amount |
| `Bank.DefaultCountCap` | DIO-desafio_sistema_bancario_POO.py:127-147 | with the default limits and a balance of 1000, three withdrawals of 100 succeed (balance 700, three records) and a fourth is refused for the count, with no change |

Helpers without a row:
- `Bank.TransactionVerdict` picks the balance operation that `registrar` calls: `depositar` for a deposit (line 27) and the dispatched `sacar` for a withdrawal (line 40). `Bank.Apply` and `Bank.Transaction.Register` are stated through it.
- `Bank.Net` is the reference balance of a history.
- `Bank.Run` is the sequence of registrations that the `Run*` lemmas quantify over.

`Bank.CheckingAccountScenario` has no contract of its own. It drives the class methods through their contracts: deposit 200, withdraw 50, then withdraw -10 and 600, which are both refused. Its assertions state the resulting balance and history, and the result of the client lookup.

## Left out

- The menu, `main` loop, every `input()` and `print()`, and the interactive wrappers `depositar`, `sacar`, `exibir_extrato`, `criar_cliente`, `criar_conta`, `listar_contas` and `recuperar_conta_cliente` (lines 187-345) are console and registry glue. The printed rejection messages appear only as the `Verdict` values.
- The global `clientes`/`contas` lists and account numbering by `len(contas) + 1` belong to the registry layer. The account number is a constructor parameter.
- The `datetime.now()` timestamp is wall-clock input. It is an opaque `Stamp` parameter supplied by the caller.
- Amounts are Python floats, parsed with `float()` and printed with `:.2f`. The model uses exact `real` numbers, so it does not capture floating-point rounding or the output format.
- Non-finite amounts are not modelled. `float()` accepts `nan` and `inf`, and the core passes them through. `nan` fails both `valor <= 0` and `valor > saldo`, so a withdrawal of `nan` is accepted and recorded, and the balance becomes `nan`. On a plain `Conta`, a deposit of `inf` followed by a withdrawal of `inf` behaves the same way. A checking account's cap refuses a withdrawal of `inf`. `Account.Valid()`, `RunKeepsBalanceNonNegative` and `RunFromOpening` are therefore results about finite amounts only.
- `Transacao` is an abstract base class with abstract members (lines 5-15). Dafny replaces it with the `Transaction` datatype and its `Kind`. The variants' `valor` property is the `amount` field.
- `Deposito(valor=None)` and `Saque(valor=None)` allow a missing amount. Comparing it would raise `TypeError`. The model always carries a number.
- `Conta.nova_conta` is the same as the constructor, so the constructors model it.
- `Cliente` and `Pessoa_fisica` are merged into one `Client` class, because only `Pessoa_fisica` is ever built and `filtrar_cliente` reads its `cpf`.
- `Conta_Corrente.__str__` and the `textwrap` rendering are presentation only.
- `Conta_Corrente` exposes its limits as public attributes. Nothing reassigns them, so the model keeps them constant.
- The model is sequential: there is no concurrency or locking.
