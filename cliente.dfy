/** `Cliente` of cliente.py: an account holder whose name is stored stripped
    of surrounding whitespace and is never blank. */
module Clientes {
  import opened Errors
  import opened Text

  class Cliente {
    var nome: string

    ghost predicate Valid()
      reads this
    {
      nome != [] && IsStripped(nome)
    }

    constructor (nome: string)
      requires !AllSpace(nome)
      ensures Valid() && this.nome == Strip(nome)
    {
      this.nome := Strip(nome);
    }

    /** `Cliente(nome)`: the constructor goes through the `nome` setter, so a
        blank name raises ClienteError and a constructed client holds the
        stripped name. */
    static method Create(nome: string) returns (r: Result<Cliente>)
      ensures r.Ok? <==> !AllSpace(nome)
      ensures r.Err? ==> r.error == ClienteInvalido
      ensures r.Ok? ==> fresh(r.value) && r.value.Valid() && r.value.nome == Strip(nome)
    {
      if Strip(nome) == [] {
        return Err(ClienteInvalido);
      }
      var c := new Cliente(nome);
      return Ok(c);
    }

    /** The `nome` setter: a name that is blank once stripped raises
        ClienteError and keeps the old name; otherwise the stripped name is
        stored, which is the name itself when it was already stripped. */
    method SetNome(novoNome: string) returns (r: Outcome)
      modifies this`nome
      ensures r.Done? <==> !AllSpace(novoNome)
      ensures r.Fail? ==> r.error == ClienteInvalido && nome == old(nome)
      ensures r.Done? ==> nome == Strip(novoNome) && Valid()
      ensures r.Done? && IsStripped(novoNome) ==> nome == novoNome
      ensures old(Valid()) ==> Valid()
    {
      if Strip(novoNome) == [] {
        return Fail(ClienteInvalido);
      }
      nome := Strip(novoNome);
      return Done;
    }

    /** `__str__`: the stored name, which for a valid client is non-empty and
        left unchanged by a further strip. */
    function ToString(): (s: string)
      reads this
      ensures s == nome
      ensures Valid() ==> s != [] && Strip(s) == s
    {
      nome
    }
  }
}
