/** The registries of Desktop/banco/classes.py: a `Bank` holds branches and a
    `Branch` holds accounts, each kept in insertion order and keyed by a
    number that `add_branch` / `add_account` keep unique. */
module Registry {
  import opened Errors
  import opened Accounts

  predicate Distinct(ns: seq<string>) {
    forall i, j :: 0 <= i < j < |ns| ==> ns[i] != ns[j]
  }

  function AccountNumbers(accounts: seq<CurrentAccount>): (ns: seq<string>)
    ensures |ns| == |accounts|
    ensures forall i :: 0 <= i < |accounts| ==> ns[i] == accounts[i].number
  {
    seq(|accounts|, i requires 0 <= i < |accounts| => accounts[i].number)
  }

  function BranchNumbers(branches: seq<Branch>): (ns: seq<string>)
    ensures |ns| == |branches|
    ensures forall i :: 0 <= i < |branches| ==> ns[i] == branches[i].number
  {
    seq(|branches|, i requires 0 <= i < |branches| => branches[i].number)
  }

  predicate IsCnpjPunctuation(c: char) {
    c == '.' || c == '-' || c == '/'
  }

  /** `cnpj.replace(".", "").replace("-", "").replace("/", "")`: every other
      character kept, as often as it occurs, and no punctuation left. */
  function CnpjDigits(cnpj: string): (r: string)
    ensures |r| <= |cnpj|
    ensures forall k :: 0 <= k < |r| ==> !IsCnpjPunctuation(r[k])
    ensures forall c :: !IsCnpjPunctuation(c) ==> multiset(r)[c] == multiset(cnpj)[c]
  {
    if cnpj == [] then []
    else
      var rest := CnpjDigits(cnpj[1..]);
      assert cnpj == [cnpj[0]] + cnpj[1..];
      if IsCnpjPunctuation(cnpj[0]) then rest else [cnpj[0]] + rest
  }

  /** `CnpjDigits` is shorter than `cnpj` by exactly its punctuation. */
  lemma {:induction false} CnpjDigitsLength(cnpj: string)
    ensures |CnpjDigits(cnpj)|
            == |cnpj| - multiset(cnpj)['.'] - multiset(cnpj)['-'] - multiset(cnpj)['/']
  {
    if cnpj != [] {
      CnpjDigitsLength(cnpj[1..]);
      assert cnpj == [cnpj[0]] + cnpj[1..];
    }
  }

  /** The loose CNPJ format check of `Bank.__init__`: at least eight
      characters once the punctuation is removed. */
  predicate CnpjAccepted(cnpj: string) {
    |CnpjDigits(cnpj)| >= 8
  }

  /** Punctuation does not count towards the eight characters: an
      eight-character CNPJ with two punctuation marks is rejected. */
  lemma CnpjShortRejected()
    ensures !CnpjAccepted("12.345-6")
  {
    CnpjDigitsLength("12.345-6");
  }

  class Branch {
    const number: string
    var name: string
    var location: string
    var phone: string
    var accounts: seq<CurrentAccount>

    ghost predicate Valid()
      reads this
    {
      number != [] && Distinct(AccountNumbers(accounts))
    }

    constructor (number: string, name: string, location: string, phone: string)
      requires number != []
      ensures Valid() && accounts == []
      ensures this.number == number && this.name == name
      ensures this.location == location && this.phone == phone
    {
      this.number := number;
      this.name := name;
      this.location := location;
      this.phone := phone;
      accounts := [];
    }

    /** `Branch(number, name, location, phone)`: an empty number raises
        ValorInvalido; otherwise an empty branch. */
    static method Create(number: string, name: string, location: string, phone: string)
      returns (r: Result<Branch>)
      ensures r.Ok? <==> number != []
      ensures r.Err? ==> r.error == ValorInvalido
      ensures r.Ok? ==> fresh(r.value) && r.value.Valid() && r.value.accounts == []
                        && r.value.number == number && r.value.name == name
                        && r.value.location == location && r.value.phone == phone
    {
      if number == [] {
        return Err(ValorInvalido);
      }
      var b := new Branch(number, name, location, phone);
      return Ok(b);
    }

    /** `add_account`: an account whose number is already present raises
        ContaJaExistente and leaves the list as it was; otherwise the account
        is appended, so the stored numbers stay pairwise distinct. */
    method AddAccount(account: CurrentAccount) returns (r: Outcome)
      modifies this`accounts
      ensures r.Fail? <==> account.number in AccountNumbers(old(accounts))
      ensures r.Fail? ==> r.error == ContaJaExistente && accounts == old(accounts)
      ensures r.Done? ==> accounts == old(accounts) + [account]
      ensures old(Valid()) ==> Valid()
    {
      var i := 0;
      while i < |accounts|
        invariant 0 <= i <= |accounts|
        invariant forall k :: 0 <= k < i ==> accounts[k].number != account.number
      {
        if accounts[i].number == account.number {
          return Fail(ContaJaExistente);
        }
        i := i + 1;
      }
      accounts := accounts + [account];
      return Done;
    }

    /** `get_account_by_number`: the first account with that number, or
        ContaNaoEncontrada exactly when no account has it. */
    method GetAccountByNumber(number: string) returns (r: Result<CurrentAccount>)
      ensures r.Err? <==> number !in AccountNumbers(accounts)
      ensures r.Err? ==> r.error == ContaNaoEncontrada
      ensures r.Ok? ==> exists i :: 0 <= i < |accounts| && accounts[i] == r.value
                          && r.value.number == number
                          && number !in AccountNumbers(accounts[..i])
    {
      var i := 0;
      while i < |accounts|
        invariant 0 <= i <= |accounts|
        invariant number !in AccountNumbers(accounts[..i])
      {
        if accounts[i].number == number {
          return Ok(accounts[i]);
        }
        assert AccountNumbers(accounts[..i + 1]) == AccountNumbers(accounts[..i]) + [accounts[i].number];
        i := i + 1;
      }
      assert accounts[..i] == accounts;
      return Err(ContaNaoEncontrada);
    }
  }

  class Bank {
    var name: string
    var cnpj: string
    var location: string
    var phone: string
    var branches: seq<Branch>

    ghost predicate Valid()
      reads this
    {
      Distinct(BranchNumbers(branches))
    }

    constructor (name: string, cnpj: string, location: string, phone: string)
      requires CnpjAccepted(cnpj)
      ensures Valid() && branches == []
      ensures this.name == name && this.cnpj == cnpj
      ensures this.location == location && this.phone == phone
    {
      this.name := name;
      this.cnpj := cnpj;
      this.location := location;
      this.phone := phone;
      branches := [];
    }

    /** `Bank(name, cnpj, location, phone)`: a CNPJ with fewer than eight
        characters besides `.`, `-` and `/` raises ValorInvalido. */
    static method Create(name: string, cnpj: string, location: string, phone: string)
      returns (r: Result<Bank>)
      ensures r.Ok? <==> CnpjAccepted(cnpj)
      ensures r.Err? ==> r.error == ValorInvalido
      ensures r.Ok? ==> fresh(r.value) && r.value.Valid() && r.value.branches == []
                        && r.value.name == name && r.value.cnpj == cnpj
                        && r.value.location == location && r.value.phone == phone
    {
      if !CnpjAccepted(cnpj) {
        return Err(ValorInvalido);
      }
      var b := new Bank(name, cnpj, location, phone);
      return Ok(b);
    }

    /** `add_branch`: a branch whose number is already present raises
        AgenciaJaExistente and leaves the list as it was; otherwise the
        branch is appended, so the stored numbers stay pairwise distinct. */
    method AddBranch(branch: Branch) returns (r: Outcome)
      modifies this`branches
      ensures r.Fail? <==> branch.number in BranchNumbers(old(branches))
      ensures r.Fail? ==> r.error == AgenciaJaExistente && branches == old(branches)
      ensures r.Done? ==> branches == old(branches) + [branch]
      ensures old(Valid()) ==> Valid()
    {
      var i := 0;
      while i < |branches|
        invariant 0 <= i <= |branches|
        invariant forall k :: 0 <= k < i ==> branches[k].number != branch.number
      {
        if branches[i].number == branch.number {
          return Fail(AgenciaJaExistente);
        }
        i := i + 1;
      }
      branches := branches + [branch];
      return Done;
    }

    /** `get_branch_by_number`: the first branch with that number, or
        AgenciaNaoEncontrada exactly when no branch has it. */
    method GetBranchByNumber(number: string) returns (r: Result<Branch>)
      ensures r.Err? <==> number !in BranchNumbers(branches)
      ensures r.Err? ==> r.error == AgenciaNaoEncontrada
      ensures r.Ok? ==> exists i :: 0 <= i < |branches| && branches[i] == r.value
                          && r.value.number == number
                          && number !in BranchNumbers(branches[..i])
    {
      var i := 0;
      while i < |branches|
        invariant 0 <= i <= |branches|
        invariant number !in BranchNumbers(branches[..i])
      {
        if branches[i].number == number {
          return Ok(branches[i]);
        }
        assert BranchNumbers(branches[..i + 1]) == BranchNumbers(branches[..i]) + [branches[i].number];
        i := i + 1;
      }
      assert branches[..i] == branches;
      return Err(AgenciaNaoEncontrada);
    }
  }
}
