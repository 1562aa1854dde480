/** Clients, transactions and accounts of Desktop/banco/classes.py.

    `Account` is abstract in the source and `Savings_account` leaves the
    abstract `withdraw` and `deposit` unimplemented, so Python can instantiate
    neither: every account object the Desktop ledger can hold is a
    `Current_account`, modelled by the class `CurrentAccount`, which also
    carries `Account`'s own methods. For `Account` and `Savings_account`
    themselves only the constructor checks and `get_Earning` are modelled,
    as the functions `CheckAccount`, `CheckSavingsAccount` and `Earning`. */
module Accounts {
  import opened Errors
  import opened Validation

  /** The flat tax a new `Current_account` charges on each withdrawal. */
  const DefaultTax: real := 10.0

  /** The type tag `withdraw` gives to the transactions it records. */
  const WithdrawKind: string := "current"

  /** `Client.__init__`: a name is required, then a non-negative age. */
  function CheckClient(name: string, age: int): (e: Option<Error>)
    ensures e.None? <==> name != [] && age >= 0
    ensures e == Some(ValorNegativo) <==> name != [] && age < 0
    ensures e.Some? ==> e.value == ValorInvalido || e.value == ValorNegativo
  {
    if name == [] then Some(ValorInvalido)
    else if age < 0 then Some(ValorNegativo)
    else None
  }

  /** `Account.__init__`: non-empty number, non-negative balance, non-empty
      password, checked in that order. */
  function CheckAccount(number: string, balance: real, password: string): (e: Option<Error>)
    ensures e.None? <==> number != [] && balance >= 0.0 && password != []
    ensures e == Some(ValorNegativo) <==> number != [] && balance < 0.0
    ensures e.Some? ==> e.value == ValorInvalido || e.value == ValorNegativo
  {
    if number == [] then Some(ValorInvalido)
    else if balance < 0.0 then Some(ValorNegativo)
    else if password == [] then Some(ValorInvalido)
    else None
  }

  /** `Current_account.__init__`: a negative limit is rejected before the
      checks of `Account.__init__` run. */
  function CheckCurrentAccount(number: string, balance: real, password: string, limit: real): (e: Option<Error>)
    ensures e.None? <==> limit >= 0.0 && number != [] && balance >= 0.0 && password != []
    ensures limit < 0.0 ==> e == Some(ValorNegativo)
    ensures limit >= 0.0 ==> e == CheckAccount(number, balance, password)
  {
    if limit < 0.0 then Some(ValorNegativo) else CheckAccount(number, balance, password)
  }

  /** `Savings_account.__init__`: a negative earnings rate is rejected before
      the checks of `Account.__init__` run. */
  function CheckSavingsAccount(number: string, balance: real, password: string, earnings: real): (e: Option<Error>)
    ensures e.None? <==> earnings >= 0.0 && number != [] && balance >= 0.0 && password != []
    ensures earnings < 0.0 ==> e == Some(ValorNegativo)
    ensures earnings >= 0.0 ==> e == CheckAccount(number, balance, password)
  {
    if earnings < 0.0 then Some(ValorNegativo) else CheckAccount(number, balance, password)
  }

  /** `Savings_account.get_Earning`: simple earnings on the balance,
      informational only; never negative while the balance and the rate the
      constructor accepted are not. */
  function Earning(balance: real, earnings: real): (r: real)
    ensures balance >= 0.0 && earnings >= 0.0 ==> r >= 0.0
  {
    balance * earnings
  }

  /** The withdrawal rule of `Current_account.withdraw`: the new balance, or
      the error raised. The amount is validated first, then compared with
      the limit alone, and only then with balance + limit; the debit is the
      amount plus the flat tax. */
  function WithdrawRule(balance: real, limit: real, tax: real, value: Option<real>): (r: Result<real>)
    ensures r.Ok? <==> ValidarValor(value).Ok? && value.value <= limit
                       && value.value + tax <= balance + limit
    ensures r.Ok? ==> r.value == balance - (value.value + tax) && r.value >= -limit
    ensures ValidarValor(value).Err? ==> r == Err(ValidarValor(value).error)
    ensures r == Err(LimiteExcedido) <==> ValidarValor(value).Ok? && value.value > limit
    ensures r == Err(SaldoInsuficiente) <==>
              ValidarValor(value).Ok? && value.value <= limit && value.value + tax > balance + limit
  {
    match ValidarValor(value)
    case Err(e) => Err(e)
    case Ok(v) =>
      var withdrawValue := v + tax;
      var available := balance + limit;
      if v > limit then Err(LimiteExcedido)
      else if withdrawValue <= available then Ok(balance - withdrawValue)
      else Err(SaldoInsuficiente)
  }

  /** The withdrawals of the source's example block, and the boundary case
      where the debit equals balance + limit exactly. */
  lemma WithdrawExamples()
    ensures WithdrawRule(100.0, 50.0, DefaultTax, Some(20.0)) == Ok(70.0)
    ensures WithdrawRule(70.0, 50.0, DefaultTax, Some(1000.0)) == Err(LimiteExcedido)
    ensures WithdrawRule(100.0, 50.0, DefaultTax, None) == Err(ValorInvalido)
    ensures WithdrawRule(10.0, 5.0, DefaultTax, Some(5.0)) == Ok(-5.0)
  {
  }

  /** A value above the limit is refused even when the balance alone would
      cover it and its tax. */
  lemma LimitCheckedBeforeFunds(balance: real, limit: real, tax: real, v: real)
    requires 0.0 <= limit < v && v + tax <= balance
    ensures WithdrawRule(balance, limit, tax, Some(v)) == Err(LimiteExcedido)
  {
  }

  /** A record of one withdrawal; its timestamp is not modelled. */
  datatype Transaction = Transaction(kind: string, value: real, account: CurrentAccount)

  class Client {
    var name: string
    var age: int

    ghost predicate Valid()
      reads this
    {
      name != [] && age >= 0
    }

    constructor (name: string, age: int)
      requires CheckClient(name, age).None?
      ensures Valid() && this.name == name && this.age == age
    {
      this.name := name;
      this.age := age;
    }

    /** `Client(name, age)`: the client, or the error its constructor raises. */
    static method Create(name: string, age: int) returns (r: Result<Client>)
      ensures r.Ok? <==> CheckClient(name, age).None?
      ensures r.Err? ==> r.error == CheckClient(name, age).value
      ensures r.Ok? ==> fresh(r.value) && r.value.Valid()
                        && r.value.name == name && r.value.age == age
    {
      var e := CheckClient(name, age);
      if e.Some? {
        return Err(e.value);
      }
      var c := new Client(name, age);
      return Ok(c);
    }

    /** The `name` setter: an empty name raises ValorInvalido. */
    method SetName(value: string) returns (r: Outcome)
      modifies this`name
      ensures r.Done? <==> value != []
      ensures r.Fail? ==> r.error == ValorInvalido
      ensures name == if r.Done? then value else old(name)
      ensures old(Valid()) ==> Valid()
    {
      if value == [] {
        return Fail(ValorInvalido);
      }
      name := value;
      return Done;
    }

    /** The `age` setter: a negative age raises ValorNegativo. */
    method SetAge(value: int) returns (r: Outcome)
      modifies this`age
      ensures r.Done? <==> value >= 0
      ensures r.Fail? ==> r.error == ValorNegativo
      ensures age == if r.Done? then value else old(age)
      ensures old(Valid()) ==> Valid()
    {
      if value < 0 {
        return Fail(ValorNegativo);
      }
      age := value;
      return Done;
    }
  }

  /** `Current_account`: an overdraft account with a limit and a flat tax on
      each withdrawal. The balance setter of the source is public and
      unchecked, so the balance is not part of the object invariant; what
      withdrawals and deposits promise about it is in their contracts. */
  class CurrentAccount {
    const number: string
    var client: string
    var balance: real
    var password: string
    var transactions: seq<Transaction>
    var limit: real
    var tax: real

    ghost predicate Valid()
      reads this
    {
      number != [] && password != [] && limit >= 0.0 && tax > 0.0
    }

    constructor (number: string, client: string, balance: real, password: string, limit: real)
      requires CheckCurrentAccount(number, balance, password, limit).None?
      ensures Valid()
      ensures this.number == number && this.client == client && this.balance == balance
      ensures this.password == password && this.limit == limit
      ensures tax == DefaultTax && transactions == []
    {
      this.number := number;
      this.client := client;
      this.balance := balance;
      this.password := password;
      this.limit := limit;
      tax := DefaultTax;
      transactions := [];
    }

    /** `Current_account(number, client, balance, password, limit)`: the new
        account with tax 10.0 and no transactions, or the error raised. */
    static method Create(number: string, client: string, balance: real, password: string, limit: real)
      returns (r: Result<CurrentAccount>)
      ensures r.Ok? <==> CheckCurrentAccount(number, balance, password, limit).None?
      ensures r.Err? ==> r.error == CheckCurrentAccount(number, balance, password, limit).value
      ensures r.Ok? ==> fresh(r.value) && r.value.Valid()
      ensures r.Ok? ==> r.value.number == number && r.value.client == client
                        && r.value.balance == balance && r.value.password == password
                        && r.value.limit == limit && r.value.tax == DefaultTax
                        && r.value.transactions == []
    {
      var e := CheckCurrentAccount(number, balance, password, limit);
      if e.Some? {
        return Err(e.value);
      }
      var a := new CurrentAccount(number, client, balance, password, limit);
      return Ok(a);
    }

    /** `auntheticate` (so spelled in the source): plain password equality. */
    function Authenticate(password: string): (ok: bool)
      reads this
      ensures ok <==> password == this.password
    {
      this.password == password
    }

    /** `authentication`: true when the password matches, SenhaIncorreta
        otherwise; the account is left as it was. */
    method Authentication(password: string) returns (r: Result<bool>)
      ensures r.Ok? <==> password == this.password
      ensures r.Ok? ==> r.value
      ensures r.Err? ==> r.error == SenhaIncorreta
    {
      if !Authenticate(password) {
        return Err(SenhaIncorreta);
      }
      return Ok(true);
    }

    /** The `client` setter: an empty holder name raises ValorInvalido. */
    method SetClient(value: string) returns (r: Outcome)
      modifies this`client
      ensures r.Done? <==> value != []
      ensures r.Fail? ==> r.error == ValorInvalido
      ensures client == if r.Done? then value else old(client)
    {
      if value == [] {
        return Fail(ValorInvalido);
      }
      client := value;
      return Done;
    }

    /** The `password` setter: an empty password raises ValorInvalido. */
    method SetPassword(value: string) returns (r: Outcome)
      modifies this`password
      ensures r.Done? <==> value != []
      ensures r.Fail? ==> r.error == ValorInvalido
      ensures password == if r.Done? then value else old(password)
      ensures old(Valid()) ==> Valid()
    {
      if value == [] {
        return Fail(ValorInvalido);
      }
      password := value;
      return Done;
    }

    /** The `balance` setter: it accepts any value. */
    method SetBalance(value: real)
      modifies this`balance
      ensures balance == value
      ensures old(Valid()) ==> Valid()
    {
      balance := value;
    }

    /** The `limit` setter: a negative limit raises ValorNegativo. */
    method SetLimit(value: real) returns (r: Outcome)
      modifies this`limit
      ensures r.Done? <==> value >= 0.0
      ensures r.Fail? ==> r.error == ValorNegativo
      ensures limit == if r.Done? then value else old(limit)
      ensures old(Valid()) ==> Valid()
    {
      if value < 0.0 {
        return Fail(ValorNegativo);
      }
      limit := value;
      return Done;
    }

    /** The `tax` setter: the new tax passes `validar_valor`, so it is
        positive; otherwise the tax is unchanged and the error is raised. */
    method SetTax(value: Option<real>) returns (r: Outcome)
      modifies this`tax
      ensures r.Done? <==> ValidarValor(value).Ok?
      ensures r.Fail? ==> r.error == ValidarValor(value).error
      ensures tax == if r.Done? then value.value else old(tax)
      ensures old(Valid()) ==> Valid()
    {
      var v := ValidarValor(value);
      if v.Err? {
        return Fail(v.error);
      }
      tax := v.value;
      return Done;
    }

    /** `withdraw`: on success the balance drops by the amount plus the tax
        and one transaction recording the amount alone is appended; on any
        error neither the balance nor the transactions change. */
    method Withdraw(value: Option<real>) returns (r: Outcome)
      modifies this`balance, this`transactions
      ensures r.Done? <==> WithdrawRule(old(balance), limit, tax, value).Ok?
      ensures r.Fail? ==> r.error == WithdrawRule(old(balance), limit, tax, value).error
                          && balance == old(balance) && transactions == old(transactions)
      ensures r.Done? ==> balance == old(balance) - (value.value + tax) && balance >= -limit
      ensures r.Done? ==> transactions == old(transactions) + [Transaction(WithdrawKind, value.value, this)]
      ensures old(Valid()) ==> Valid()
    {
      var checked := ValidarValor(value);
      if checked.Err? {
        return Fail(checked.error);
      }
      var v := checked.value;
      var withdrawValue := v + tax;
      var available := balance + limit;
      if v > limit {
        return Fail(LimiteExcedido);
      }
      if withdrawValue <= available {
        balance := balance - withdrawValue;
        transactions := transactions + [Transaction(WithdrawKind, v, this)];
        return Done;
      }
      return Fail(SaldoInsuficiente);
    }

    /** `deposit`: the validated amount is added to the balance; no
        transaction is recorded. */
    method Deposit(value: Option<real>) returns (r: Outcome)
      modifies this`balance
      ensures r.Done? <==> ValidarValor(value).Ok?
      ensures r.Fail? ==> r.error == ValidarValor(value).error && balance == old(balance)
      ensures r.Done? ==> balance == old(balance) + value.value
      ensures old(Valid()) ==> Valid()
    {
      var checked := ValidarValor(value);
      if checked.Err? {
        return Fail(checked.error);
      }
      balance := balance + checked.value;
      return Done;
    }

    /** `get_tax_value`: 7% of the balance, informational only; it has the
        sign of the balance and never exceeds it in magnitude. */
    function TaxValue(): (t: real)
      reads this
      ensures (t < 0.0) == (balance < 0.0)
      ensures balance >= 0.0 ==> t <= balance
      ensures balance <= 0.0 ==> t >= balance
    {
      balance * 0.07
    }
  }
}
