# Bank ledger model

A verified Dafny model of the two versions of a small in-memory bank ledger.

- **The Desktop ledger** (`Desktop/banco/classes.py`). `validar_valor` is the gate for amounts. `Current_account` is an overdraft account: it has a limit and charges a flat tax on every withdrawal. `Client` and `Account` check their fields when built and when set. `Bank` and `Branch` are registries keyed by a unique number. These are modelled in the modules `Validation`, `Accounts` and `Registry`.
- **The root ledger** (`conta.py`, `banco.py`, `cliente.py`). `ContaBancaria` is an account whose balance starts at 0 and can never go negative. It supports deposits, withdrawals and transfers, and takes its number from a counter. `Banco.criar_conta` validates and appends a new account. `Cliente` stores a stripped, non-blank name. These are modelled in `Contas`, `Bancos` and `Clientes`. `Text` models Python's `str.strip()`.

Money is `real`, so there is no floating-point rounding. An operation that raises returns `Err`/`Fail` with an `Errors.Error` kind. There is one kind per exception class the model can raise. `ContaError` and `TipoInvalidoError` have no kind, because they come only from type checks that Dafny's typing rules out (see "Left out"). Objects whose fields the source updates are classes, and their methods carry `modifies` clauses. Each method's contract ties the new state to the old one.

Design decisions:
- An amount given to the Desktop ledger is an `Option<real>`. `None` stands for an argument that `float()` cannot convert.
- `Account` is abstract. `Savings_account` does not implement `withdraw` or `deposit`, so Python cannot create one. So every account a `Branch` can hold is a `Current_account`, modelled by `Accounts.CurrentAccount`. `Account`'s own methods (authentication, setters, balance) are modelled on `CurrentAccount`. For `Account` and `Savings_account` themselves, only the constructor checks and `get_Earning` are modelled: `Accounts.CheckAccount`, `Accounts.CheckSavingsAccount` and `Accounts.Earning`.
- A Python constructor that raises leaves no object behind. It is modelled as a static `Create` method that returns the new object or the error. The Dafny constructor it calls requires the checks to have passed.
- The class-level counter `ContaBancaria._proximo_numero` becomes a `Contas.NumberGenerator` object. It is passed to the `ContaBancaria` constructor and to `Banco.CriarConta`.
- The public `balance` setter of `Account` is unchecked. So the Desktop balance is not part of `CurrentAccount.Valid()`. Its bound after a withdrawal (`balance >= -limit`) is stated in the postcondition of `Withdraw`.
- `transferir` really is all-or-nothing. `sacar` rejects `valor <= 0` before it changes anything, so `depositar` cannot fail after `sacar` has succeeded. The model follows this code, including a transfer from an account to itself.
- The `tax` setter passes its value through `validar_valor`. So a tax must be strictly positive, not merely non-negative, and the model follows that.

## Model

| member | source | states |
|---|---|---|
| `Validation.ValidarValor` | Desktop/banco/classes.py:25-37 | accepts exactly the positive numbers and returns them unchanged; a negative value gives ValorNegativo, and zero or a non-number gives ValorInvalido |
| `Accounts.CheckClient` | Desktop/banco/classes.py:188-192 | a client is accepted iff the name is non-empty and the age is non-negative; ValorNegativo exactly when only the age is wrong |
| `Accounts.Client.Create` | Desktop/banco/classes.py:187-195 | the new client holds the given name and age and is valid, or the constructor's error is returned and no client is created |
| `Accounts.Client.SetName` | Desktop/banco/classes.py:201-205 | an empty name raises ValorInvalido and keeps the old one; otherwise it is stored; validity is preserved |
| `Accounts.Client.SetAge` | Desktop/banco/classes.py:211-215 | a negative age raises ValorNegativo and keeps the old one; otherwise it is stored; validity is preserved |
| `Accounts.CheckAccount` | Desktop/banco/classes.py:277-283 | an account is accepted iff the number and password are non-empty and the balance is non-negative; ValorNegativo exactly when the number is present and the balance is negative |
| `Accounts.CheckCurrentAccount` | Desktop/banco/classes.py:354-358 | a negative limit is rejected with ValorNegativo before any `Account` check; otherwise the `Account` checks decide |
| `Accounts.CheckSavingsAccount` | Desktop/banco/classes.py:412-416 | a negative earnings rate is rejected with ValorNegativo before any `Account` check; otherwise the `Account` checks decide |
| `Accounts.Earning` | Desktop/banco/classes.py:420-422 | the earnings are non-negative while the balance and the rate are |
| `Accounts.WithdrawRule` | Desktop/banco/classes.py:382-400 | a withdrawal succeeds iff the amount is valid, at most the limit, and amount + tax <= balance + limit (inclusive); the new balance is old - (amount + tax), which is >= -limit; an amount over the limit gives LimiteExcedido whatever the funds; insufficient funds give SaldoInsuficiente |
| `Accounts.WithdrawExamples` | Desktop/banco/classes.py:456-472 | 100 - (20 + 10) = 70; 1000 over a limit of 50 gives LimiteExcedido; a non-number gives ValorInvalido; a debit equal to balance + limit passes |
| `Accounts.LimitCheckedBeforeFunds` | Desktop/banco/classes.py:389-390 | an amount above the limit is refused even when the balance alone covers it and its tax |
| `Accounts.CurrentAccount.Create` | Desktop/banco/classes.py:354-361 | the new account holds the given fields, a tax of 10.0 and no transactions, and is valid; otherwise the check's error is returned |
| `Accounts.CurrentAccount.Authenticate` | Desktop/banco/classes.py:343-344 | true iff the password equals the stored one; reads only |
| `Accounts.CurrentAccount.Authentication` | Desktop/banco/classes.py:329-333 | returns true iff the password matches, SenhaIncorreta otherwise; changes nothing |
| `Accounts.CurrentAccount.SetClient` | Desktop/banco/classes.py:305-309 | an empty holder name raises ValorInvalido and keeps the old one; otherwise it is stored |
| `Accounts.CurrentAccount.SetPassword` | Desktop/banco/classes.py:323-327 | an empty password raises ValorInvalido and keeps the old one; otherwise it is stored; validity is preserved |
| `Accounts.CurrentAccount.SetBalance` | Desktop/banco/classes.py:315-317 | any balance is stored unchecked; nothing else changes |
| `Accounts.CurrentAccount.SetLimit` | Desktop/banco/classes.py:367-371 | a negative limit raises ValorNegativo and keeps the old one; otherwise it is stored, so the limit stays >= 0 |
| `Accounts.CurrentAccount.SetTax` | Desktop/banco/classes.py:377-380 | the tax becomes the value if `validar_valor` accepts it, so the tax stays > 0; otherwise that error is raised and the tax is unchanged |
| `Accounts.CurrentAccount.Withdraw` | Desktop/banco/classes.py:382-400 | succeeds iff `WithdrawRule` does; on success the balance drops by amount + tax, stays >= -limit, and exactly one transaction recording the amount alone is appended; on failure the balance and the transactions are unchanged |
| `Accounts.CurrentAccount.Deposit` | Desktop/banco/classes.py:402-405 | a valid amount raises the balance by exactly that amount; an invalid one raises the validation error; the transactions are never touched |
| `Accounts.CurrentAccount.TaxValue` | Desktop/banco/classes.py:407-408 | the informational 7% has the sign of the balance and is no larger than it in magnitude |
| `Registry.CnpjDigits` | Desktop/banco/classes.py:53 | no `.`, `-` or `/` is left, and every other character is kept as often as it occurs |
| `Registry.CnpjDigitsLength` | Desktop/banco/classes.py:53 | the punctuation-free CNPJ is shorter than the input by exactly its number of `.`, `-` and `/` |
| `Registry.CnpjShortRejected` | Desktop/banco/classes.py:53-54 | punctuation does not count towards the eight characters: `12.345-6` is rejected |
| `Registry.Branch.Create` | Desktop/banco/classes.py:121-128 | an empty number raises ValorInvalido; otherwise the new branch is empty and valid |
| `Registry.Branch.AddAccount` | Desktop/banco/classes.py:170-178 | rejects with ContaJaExistente iff the number is already present, leaving the list unchanged; otherwise appends the account at the end; pairwise-distinct numbers are preserved |
| `Registry.Branch.GetAccountByNumber` | Desktop/banco/classes.py:180-184 | ContaNaoEncontrada iff no account has the number; otherwise the first account with that number |
| `Registry.Bank.Create` | Desktop/banco/classes.py:45-54 | ValorInvalido iff the CNPJ has fewer than 8 characters after removing `.`, `-` and `/`; otherwise a bank with no branches |
| `Registry.Bank.AddBranch` | Desktop/banco/classes.py:96-107 | rejects with AgenciaJaExistente iff the number is already present, leaving the list unchanged; otherwise appends the branch at the end; pairwise-distinct numbers are preserved |
| `Registry.Bank.GetBranchByNumber` | Desktop/banco/classes.py:113-117 | AgenciaNaoEncontrada iff no branch has the number; otherwise the first branch with that number |
| `Text.SpaceCharacters` | cliente.py:13-15 | `Text.IsSpace` is the set `str.strip()` removes: ASCII whitespace, the separators U+001C..U+001F, U+0085, U+00A0 and the Unicode space separators count; letters, the zero-width space U+200B and the byte-order mark U+FEFF do not |
| `Text.TrimStart` | cliente.py:15 | the result is a suffix of the input, only whitespace was removed, and it does not start with whitespace |
| `Text.TrimEnd` | cliente.py:15 | the result is a prefix of the input, only whitespace was removed, and it does not end with whitespace |
| `Text.Strip` | cliente.py:13-15 | the result is stripped and no longer than the input; it is empty iff the input is all whitespace; a stripped input is returned unchanged. That it is a slice of the input with only whitespace cut is stated by `Text.StripIsSlice` and `Text.StripCutsOnlySpace` |
| `Text.AllSpaceEverywhere` | cliente.py:13 | a string counts as blank exactly when every one of its characters is `isspace` whitespace |
| `Text.StripIsSlice` | cliente.py:15 | the result of `Strip` is one contiguous slice of the input, starting where `TrimStart` stopped skipping whitespace |
| `Text.StripCutsOnlySpace` | cliente.py:15 | everything `Strip` cuts before and after that slice is whitespace |
| `Clientes.Cliente.Create` | cliente.py:3-5 | a blank name raises ClienteError; otherwise the client holds the stripped, non-empty name |
| `Clientes.Cliente.SetNome` | cliente.py:11-15 | a name that is blank after stripping raises ClienteError and keeps the old name; otherwise the stripped name is stored, unchanged if it was already stripped |
| `Clientes.Cliente.ToString` | cliente.py:17-18 | returns the stored name, which for a valid client is non-empty and stripped |
| `Contas.NumberGenerator.constructor` | conta.py:7 | the first number handed out is 1 |
| `Contas.Credit` | conta.py:37-40 | a deposit succeeds iff the amount is positive and then raises the balance by exactly that amount; otherwise ValorInvalido |
| `Contas.Debit` | conta.py:42-47 | a withdrawal succeeds iff 0 < amount <= balance and then lowers the balance by exactly that amount, never below 0; otherwise ValorInvalido for amount <= 0, then SaldoInsuficiente |
| `Contas.DebitUndoesCredit` | conta.py:37-47 | withdrawing what was just deposited restores the balance |
| `Contas.TransferRule` | conta.py:49-55 | a transfer succeeds iff the debit does; it is all-or-nothing, moves exactly the amount from source to destination, and keeps the sum |
| `Contas.RunTransfersKeepsTotal` | conta.py:49-55 | over any sequence of attempted transfers between two accounts, the sum of the balances is invariant and neither balance goes negative |
| `Contas.ContaBancaria.constructor` | conta.py:9-17 | the balance is the initial balance if positive and 0 otherwise; the number is the counter's value, and the counter advances by 1 |
| `Contas.ContaBancaria.Depositar` | conta.py:37-40 | follows `Credit`: a non-positive amount raises ValorInvalido with the balance unchanged, else the balance grows by the amount; balance >= 0 is preserved |
| `Contas.ContaBancaria.Sacar` | conta.py:42-47 | follows `Debit`: the errors leave the balance unchanged, else it drops by the amount; balance >= 0 is preserved |
| `Contas.ContaBancaria.Transferir` | conta.py:49-55 | on failure neither balance changes; on success both move as `TransferRule` says; a self-transfer leaves the balance unchanged; both balances stay >= 0 |
| `Bancos.Banco.constructor` | banco.py:6-8 | the bank starts with no accounts |
| `Bancos.CheckNovaConta` | banco.py:11-19 | the new account's inputs are accepted iff the holder name is not all whitespace and the initial balance is > 0; every rejection is ValorInvalido |
| `Bancos.Banco.CriarConta` | banco.py:10-24 | ValorInvalido iff the holder name is blank after stripping or the initial balance is <= 0, and then nothing changes; otherwise the new account is appended last and returned. Its balance is the initial balance, its holder holds the stripped name, and it takes the next number. Account numbers stay strictly increasing |
| `Bancos.Banco.Abrir` | banco.py:21-24 | once the checks pass, the account opened for the holder has the initial balance and the generator's next number, the generator advances by 1, the account is appended last, and the numbers stay strictly increasing and below the generator |

## Left out

- The `float(value)` coercion in `validar_valor`: an amount is modelled as already converted, with `None` for a non-number.
- Floating-point semantics (rounding, NaN, infinities, overflow): money is exact `real` arithmetic.
- `isinstance` checks, and the `TipoInvalidoError` / `ContaError` they raise, cannot fail under Dafny's typing.
- Transaction timestamps (`datetime.now()`) and the savings account's `_date`: only the type, value and account of a transaction are kept.
- `print` output, `show_branches`, `get_receipt`, `resumo` and `exibir_resumo`: these only format text.
- The number setters of `Branch` and `Account`. Numbers are `const`, because renumbering an element after insertion would bypass the registry's uniqueness check.
- The name, location and phone setters of `Bank` and `Branch`, and the `cnpj` setter: these are non-emptiness or type checks outside the ledger rules.
- The setters of `Transaction`: they are unchecked, and the ledger never calls them.
- `Client._accounts`: the list is created but never used.
- `Account.total` and `print_total`: their bodies are empty.
- `Client`'s age is an `int`. The source accepts any number, so a fractional age such as 30.5 is stored, and -0.5 raises ValorNegativo like any negative age.
- `Savings_account` withdrawals and deposits: the source defines none, so the class cannot be instantiated. Only its constructor check and `get_Earning` are modelled.
- Sharing the account counter among all `ContaBancaria` objects: the model threads one explicit `NumberGenerator`, and numbers are distinct only among accounts built from the same generator.
- `Banco.nome` is stored only; `main.py` is an interactive menu and is not part of this model.
