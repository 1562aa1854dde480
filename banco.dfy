/** `Banco` of banco.py: the list of accounts a bank creates. */
module Bancos {
  import opened Errors
  import opened Text
  import opened Clientes
  import opened Contas

  /** The numbers of `contas`, in list order. */
  function Numeros(contas: seq<ContaBancaria>): (ns: seq<int>)
    ensures |ns| == |contas|
    ensures forall i :: 0 <= i < |contas| ==> ns[i] == contas[i].numero
  {
    seq(|contas|, i requires 0 <= i < |contas| => contas[i].numero)
  }

  /** Strictly increasing, and every element below `next`. */
  predicate IssuedBelow(ns: seq<int>, next: int) {
    && (forall i, j :: 0 <= i < j < |ns| ==> ns[i] < ns[j])
    && (forall i :: 0 <= i < |ns| ==> ns[i] < next)
  }

  /** Appending the number a generator hands out next, then advancing it,
      keeps the issued numbers strictly increasing and below the generator. */
  lemma IssueNext(ns: seq<int>, next: int)
    ensures IssuedBelow(ns, next) ==> IssuedBelow(ns + [next], next + 1)
  {
  }

  lemma NumerosAppend(contas: seq<ContaBancaria>, conta: ContaBancaria)
    ensures Numeros(contas + [conta]) == Numeros(contas) + [conta.numero]
  {
  }

  /** The checks `criar_conta` makes before it creates anything: a holder
      name that is blank once stripped, then a zero and then a negative
      initial balance, each raise ValorInvalido. */
  function CheckNovaConta(nomeTitular: string, saldoInicial: real): (e: Option<Error>)
    ensures e.None? <==> !AllSpace(nomeTitular) && saldoInicial > 0.0
    ensures e.Some? ==> e.value == ValorInvalido
  {
    if Strip(nomeTitular) == [] then Some(ValorInvalido)
    else if saldoInicial == 0.0 then Some(ValorInvalido)
    else if saldoInicial < 0.0 then Some(ValorInvalido)
    else None
  }

  class Banco {
    var nome: string
    var contas: seq<ContaBancaria>

    /** Accounts appear in the order their numbers were issued by `gen`, and
        every number issued so far is below the generator's next one. */
    ghost predicate Valid(gen: NumberGenerator)
      reads this, gen
    {
      IssuedBelow(Numeros(contas), gen.next)
    }

    constructor (nome: string)
      ensures this.nome == nome && contas == []
      ensures forall gen: NumberGenerator :: Valid(gen)
    {
      this.nome := nome;
      contas := [];
    }

    /** `criar_conta`: when `CheckNovaConta` fails, ValorInvalido is raised
        before anything changes. Otherwise a client with the stripped name and an
        account holding the initial balance are created, and the account is
        appended and returned. */
    method CriarConta(gen: NumberGenerator, nomeTitular: string, saldoInicial: real)
      returns (r: Result<ContaBancaria>)
      modifies this`contas, gen
      ensures r.Ok? <==> !AllSpace(nomeTitular) && saldoInicial > 0.0
      ensures r.Err? ==> r.error == ValorInvalido
      ensures r.Err? ==> contas == old(contas) && gen.next == old(gen.next)
      ensures r.Ok? ==> fresh(r.value) && fresh(r.value.titular)
                        && contas == old(contas) + [r.value]
      ensures r.Ok? ==> r.value.saldo == saldoInicial && r.value.Valid()
                        && r.value.titular.nome == Strip(nomeTitular) && r.value.titular.Valid()
      ensures r.Ok? ==> r.value.numero == old(gen.next) && gen.next == old(gen.next) + 1
      ensures old(Valid(gen)) ==> Valid(gen)
    {
      var e := CheckNovaConta(nomeTitular, saldoInicial);
      if e.Some? {
        return Err(e.value);
      }
      var titular := new Cliente(nomeTitular);
      var conta := Abrir(gen, titular, saldoInicial);
      return Ok(conta);
    }

    /** What `criar_conta` does once its checks pass: open an account for
        `titular` under the generator's next number and append it. */
    method Abrir(gen: NumberGenerator, titular: Cliente, saldoInicial: real)
      returns (conta: ContaBancaria)
      requires saldoInicial > 0.0
      modifies this`contas, gen
      ensures fresh(conta) && conta.titular == titular
      ensures conta.saldo == saldoInicial && conta.Valid()
      ensures conta.numero == old(gen.next) && gen.next == old(gen.next) + 1
      ensures contas == old(contas) + [conta]
      ensures old(Valid(gen)) ==> Valid(gen)
    {
      ghost var before := Numeros(contas);
      conta := new ContaBancaria(titular, saldoInicial, gen);
      IssueNext(before, conta.numero);
      NumerosAppend(contas, conta);
      contas := contas + [conta];
    }
  }
}
