/** `ContaBancaria` of conta.py: an account whose balance starts at zero,
    moves only through validated deposits and withdrawals, and so never goes
    negative. */
module Contas {
  import opened Errors
  import opened Clientes

  /** The class-level counter `ContaBancaria._proximo_numero`, made an explicit
      object: every account constructed with it takes its current value as
      number and advances it by one. */
  class NumberGenerator {
    var next: int

    constructor ()
      ensures next == 1
    {
      next := 1;
    }
  }

  /** The balance after `depositar(valor)`, or the error raised: the amount
      must be positive. */
  function Credit(saldo: real, valor: real): (r: Result<real>)
    ensures r.Ok? <==> valor > 0.0
    ensures r.Ok? ==> r.value == saldo + valor && r.value > saldo
    ensures r.Err? ==> r.error == ValorInvalido
  {
    if valor <= 0.0 then Err(ValorInvalido) else Ok(saldo + valor)
  }

  /** The balance after `sacar(valor)`, or the error raised: the amount must
      be positive, then no larger than the balance. */
  function Debit(saldo: real, valor: real): (r: Result<real>)
    ensures r.Ok? <==> 0.0 < valor <= saldo
    ensures r.Ok? ==> r.value == saldo - valor && 0.0 <= r.value < saldo
    ensures r.Err? ==> r.error == if valor <= 0.0 then ValorInvalido else SaldoInsuficiente
  {
    if valor <= 0.0 then Err(ValorInvalido)
    else if valor > saldo then Err(SaldoInsuficiente)
    else Ok(saldo - valor)
  }

  /** A withdrawal of what was just deposited restores the balance. */
  lemma DebitUndoesCredit(saldo: real, valor: real)
    requires saldo >= 0.0 && valor > 0.0
    ensures Debit(Credit(saldo, valor).value, valor) == Ok(saldo)
  {
  }

  /** `transferir` between two distinct accounts, on their balances: the
      source is debited, then the destination credited. The credit cannot
      fail once the debit has passed, so either both balances move or
      neither does, and their sum is kept. */
  function TransferRule(origem: real, destino: real, valor: real): (r: Result<(real, real)>)
    ensures r.Ok? <==> Debit(origem, valor).Ok?
    ensures r.Err? ==> r.error == Debit(origem, valor).error
    ensures r.Ok? ==> r.value.0 == origem - valor && r.value.1 == destino + valor
    ensures r.Ok? ==> r.value.0 + r.value.1 == origem + destino
  {
    match Debit(origem, valor)
    case Err(e) => Err(e)
    case Ok(o) =>
      match Credit(destino, valor)
      case Err(e) => Err(e)
      case Ok(d) => Ok((o, d))
  }

  /** One `transferir` call between two accounts A and B, in either direction. */
  datatype TransferStep = TransferStep(fromA: bool, valor: real)

  /** The balances of A and B after a sequence of transfers between them;
      a transfer that raises leaves both as they were. */
  function RunTransfers(a: real, b: real, steps: seq<TransferStep>): (real, real)
    decreases |steps|
  {
    if steps == [] then (a, b)
    else
      var s := steps[0];
      var t := if s.fromA then TransferRule(a, b, s.valor) else TransferRule(b, a, s.valor);
      var (a', b') := if t.Err? then (a, b)
                      else if s.fromA then (t.value.0, t.value.1)
                      else (t.value.1, t.value.0);
      RunTransfers(a', b', steps[1..])
  }

  /** Whatever transfers are attempted between two accounts, successful or
      not, the sum of their balances is unchanged and neither goes negative. */
  lemma {:induction false} RunTransfersKeepsTotal(a: real, b: real, steps: seq<TransferStep>)
    requires a >= 0.0 && b >= 0.0
    ensures RunTransfers(a, b, steps).0 + RunTransfers(a, b, steps).1 == a + b
    ensures RunTransfers(a, b, steps).0 >= 0.0 && RunTransfers(a, b, steps).1 >= 0.0
    decreases |steps|
  {
    if steps != [] {
      var s := steps[0];
      var t := if s.fromA then TransferRule(a, b, s.valor) else TransferRule(b, a, s.valor);
      var (a', b') := if t.Err? then (a, b)
                      else if s.fromA then (t.value.0, t.value.1)
                      else (t.value.1, t.value.0);
      RunTransfersKeepsTotal(a', b', steps[1..]);
    }
  }

  class ContaBancaria {
    const titular: Cliente
    const numero: int
    var saldo: real

    ghost predicate Valid()
      reads this
    {
      saldo >= 0.0
    }

    /** `ContaBancaria(cliente, saldo_inicial)`: the balance starts at 0 and a
        positive initial balance is deposited; the account takes the
        generator's current number and advances it. */
    constructor (titular: Cliente, saldoInicial: real, gen: NumberGenerator)
      modifies gen
      ensures Valid()
      ensures this.titular == titular
      ensures saldo == if saldoInicial > 0.0 then saldoInicial else 0.0
      ensures numero == old(gen.next) && gen.next == old(gen.next) + 1
    {
      this.titular := titular;
      numero := gen.next;
      saldo := 0.0;
      new;
      if saldoInicial > 0.0 {
        var deposited := Depositar(saldoInicial);
      }
      gen.next := gen.next + 1;
    }

    /** `depositar`: a non-positive amount raises ValorInvalido and changes
        nothing; otherwise the balance grows by exactly the amount. */
    method Depositar(valor: real) returns (r: Outcome)
      modifies this`saldo
      ensures r.Done? <==> Credit(old(saldo), valor).Ok?
      ensures r.Fail? ==> r.error == Credit(old(saldo), valor).error && saldo == old(saldo)
      ensures r.Done? ==> saldo == Credit(old(saldo), valor).value
      ensures old(Valid()) ==> Valid()
    {
      if valor <= 0.0 {
        return Fail(ValorInvalido);
      }
      saldo := saldo + valor;
      return Done;
    }

    /** `sacar`: a non-positive amount raises ValorInvalido, one above the
        balance SaldoInsuficiente, and neither changes anything; otherwise
        the balance drops by exactly the amount. */
    method Sacar(valor: real) returns (r: Outcome)
      modifies this`saldo
      ensures r.Done? <==> Debit(old(saldo), valor).Ok?
      ensures r.Fail? ==> r.error == Debit(old(saldo), valor).error && saldo == old(saldo)
      ensures r.Done? ==> saldo == Debit(old(saldo), valor).value
      ensures old(Valid()) ==> Valid()
    {
      if valor <= 0.0 {
        return Fail(ValorInvalido);
      }
      if valor > saldo {
        return Fail(SaldoInsuficiente);
      }
      saldo := saldo - valor;
      return Done;
    }

    /** `transferir`: `sacar` on this account, then `depositar` on the other.
        When the withdrawal raises, neither balance changes; when it passes,
        the deposit cannot fail, and both balances move as `TransferRule`
        says. A transfer to the same account leaves its balance unchanged. */
    method Transferir(outra: ContaBancaria, valor: real) returns (r: Outcome)
      modifies this`saldo, outra`saldo
      ensures r.Done? <==> Debit(old(saldo), valor).Ok?
      ensures r.Fail? ==> r.error == Debit(old(saldo), valor).error
                          && saldo == old(saldo) && outra.saldo == old(outra.saldo)
      ensures r.Done? && outra != this ==>
                TransferRule(old(saldo), old(outra.saldo), valor) == Ok((saldo, outra.saldo))
      ensures outra == this ==> saldo == old(saldo)
      ensures old(Valid()) && old(outra.Valid()) ==> Valid() && outra.Valid()
    {
      r := Sacar(valor);
      if r.Fail? {
        return;
      }
      r := outra.Depositar(valor);
    }
  }
}
