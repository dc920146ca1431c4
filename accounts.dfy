/**
 * The customer store and the request handlers that act on it. Each handler
 * that takes a CPF in its path first looks the customer up (the `verifyCPF`
 * middleware) and fails with NotFound, changing nothing, when there is none.
 */
module Accounts {
  import opened Wrappers
  import opened Ledger
  import opened Registry

  datatype Error = NotFound | AlreadyRegistered | InsufficientFunds

  /** A registered customer. The CPF and the uuid never change after registration. */
  class Customer {
    var name: string
    const cpf: Cpf
    const uuid: string
    var statements: seq<Operation>

    constructor (name: string, cpf: Cpf, uuid: string)
      ensures this.name == name && this.cpf == cpf && this.uuid == uuid
      ensures statements == []
    {
      this.name := name;
      this.cpf := cpf;
      this.uuid := uuid;
      statements := [];
    }
  }

  /** The CPFs of `cs`, position by position. */
  function CpfsOf(cs: seq<Customer>): (r: seq<Cpf>)
    ensures |r| == |cs|
    ensures forall i :: 0 <= i < |cs| ==> r[i] == cs[i].cpf
  {
    seq(|cs|, i requires 0 <= i < |cs| => cs[i].cpf)
  }

  /** Customers with pairwise different CPFs are pairwise different objects. */
  lemma UniqueCustomers(cs: seq<Customer>)
    requires Unique(CpfsOf(cs))
    ensures Unique(cs)
  {
  }

  /** With unique CPFs, the customer at `k` is the only one holding its CPF. */
  lemma OnlyHolder(cs: seq<Customer>, k: nat)
    requires Unique(CpfsOf(cs)) && k < |cs|
    ensures forall i :: 0 <= i < |cs| && cs[i].cpf == cs[k].cpf ==> cs[i] == cs[k]
  {
    var cpfs := CpfsOf(cs);
    forall i | 0 <= i < |cs| && i != k
      ensures cs[i].cpf != cs[k].cpf
    {
      if i < k {
        assert cpfs[i] != cpfs[k];
      } else {
        assert cpfs[k] != cpfs[i];
      }
    }
  }

  /** Dropping the first customer drops the first CPF. */
  lemma CpfsOfDropFirst(cs: seq<Customer>)
    requires cs != []
    ensures CpfsOf(cs[1..]) == CpfsOf(cs)[1..]
  {
    var l, r := CpfsOf(cs[1..]), CpfsOf(cs)[1..];
    assert |l| == |r|;
    forall j | 0 <= j < |l|
      ensures l[j] == r[j]
    {
      assert l[j] == cs[j + 1].cpf;
    }
  }

  /** Removing a customer removes its CPF at the same position. */
  lemma CpfsOfRemoveAt(cs: seq<Customer>, k: nat)
    requires k < |cs|
    ensures CpfsOf(RemoveAt(cs, k)) == RemoveAt(CpfsOf(cs), k)
  {
    var rest, cpfs := RemoveAt(cs, k), CpfsOf(cs);
    var l, r := CpfsOf(rest), RemoveAt(cpfs, k);
    assert |l| == |r|;
    forall j | 0 <= j < |l|
      ensures l[j] == r[j]
    {
      var j' := if j < k then j else j + 1;
      assert l[j] == rest[j].cpf == cs[j'].cpf == cpfs[j'] == r[j];
    }
  }

  /** The store: the module-level `customers` array, in registration order. */
  class Bank {
    var customers: seq<Customer>

    /** No two customers share a CPF. */
    ghost predicate Valid()
      reads this
    {
      Unique(CpfsOf(customers))
    }

    function Cpfs(): seq<Cpf>
      reads this
    {
      CpfsOf(customers)
    }

    constructor ()
      ensures Valid() && customers == []
    {
      customers := [];
    }

    /** `verifyCPF` (and the account view): the first customer whose CPF is `cpf`. */
    method Find(cpf: Cpf) returns (r: Option<Customer>)
      ensures r.None? <==> cpf !in Cpfs()
      ensures r.Some? ==> r.value in customers && r.value.cpf == cpf
      ensures match FirstIndex(Cpfs(), cpf)
              case None => true
              case Some(k) => r == Some(customers[k])
    {
      var k := FirstIndex(Cpfs(), cpf);
      r := if k.Some? then Some(customers[k.value]) else None;
    }

    /**
     * `POST /account`: refuse a CPF that is already registered; otherwise add
     * a new customer with no statements at the end of the store.
     */
    method Register(name: string, cpf: Cpf, uuid: string) returns (r: Result<Customer, Error>)
      requires Valid()
      modifies this
      ensures Valid()
      ensures cpf in old(Cpfs()) ==> r == Failure(AlreadyRegistered) && customers == old(customers)
      ensures cpf !in old(Cpfs()) ==>
                && r.Success? && fresh(r.value)
                && customers == old(customers) + [r.value]
                && r.value.name == name && r.value.cpf == cpf && r.value.uuid == uuid
                && r.value.statements == []
      ensures Cpfs() == if cpf in old(Cpfs()) then old(Cpfs()) else old(Cpfs()) + [cpf]
    {
      if cpf in Cpfs() {
        return Failure(AlreadyRegistered);
      }
      var c := new Customer(name, cpf, uuid);
      UniqueAppend(Cpfs(), cpf);
      customers := customers + [c];
      assert Cpfs() == old(Cpfs()) + [cpf];
      r := Success(c);
    }

    /**
     * `POST /deposit/:cpf`: append one credit entry to the statements of the
     * customer with that CPF; nothing else changes.
     */
    method Deposit(cpf: Cpf, description: string, amount: int, now: int) returns (out: Outcome<Error>)
      requires Valid()
      modifies customers
      ensures out == if cpf in Cpfs() then Pass else Fail(NotFound)
      ensures forall i :: 0 <= i < |customers| ==> customers[i].name == old(customers[i].name)
      ensures forall i :: 0 <= i < |customers| ==>
                customers[i].statements ==
                  if customers[i].cpf == cpf
                  then old(customers[i].statements) + [Operation(description, amount, now, Credit)]
                  else old(customers[i].statements)
      ensures forall i :: 0 <= i < |customers| && customers[i].cpf == cpf ==>
                Balance(customers[i].statements) == Balance(old(customers[i].statements)) + amount
    {
      var found := Find(cpf);
      match found
      case None =>
        out := Fail(NotFound);
      case Some(c) =>
        OnlyHolder(customers, FirstIndex(Cpfs(), cpf).value);
        BalanceAppend(c.statements, Operation(description, amount, now, Credit));
        c.statements := c.statements + [Operation(description, amount, now, Credit)];
        out := Pass;
    }

    /**
     * `POST /withdraw/:cpf`: refuse an amount above the current balance;
     * otherwise append one withdraw entry, which leaves the balance at least 0.
     */
    method Withdraw(cpf: Cpf, description: string, amount: int, now: int) returns (out: Outcome<Error>)
      requires Valid()
      modifies customers
      ensures cpf !in Cpfs() ==> out == Fail(NotFound)
      ensures forall i :: 0 <= i < |customers| && customers[i].cpf == cpf ==>
                out == if amount > Balance(old(customers[i].statements)) then Fail(InsufficientFunds) else Pass
      ensures forall i :: 0 <= i < |customers| ==> customers[i].name == old(customers[i].name)
      ensures forall i :: 0 <= i < |customers| ==>
                customers[i].statements ==
                  if customers[i].cpf == cpf && out == Pass
                  then old(customers[i].statements) + [Operation(description, amount, now, Withdrawal)]
                  else old(customers[i].statements)
      ensures out == Pass ==>
                forall i :: 0 <= i < |customers| && customers[i].cpf == cpf ==>
                  Balance(customers[i].statements) == Balance(old(customers[i].statements)) - amount >= 0
    {
      var found := Find(cpf);
      match found
      case None =>
        out := Fail(NotFound);
      case Some(c) =>
        OnlyHolder(customers, FirstIndex(Cpfs(), cpf).value);
        var balance := Balance(c.statements);
        if amount > balance {
          out := Fail(InsufficientFunds);
        } else {
          BalanceAppend(c.statements, Operation(description, amount, now, Withdrawal));
          c.statements := c.statements + [Operation(description, amount, now, Withdrawal)];
          out := Pass;
        }
    }

    /** `GET /statements/:cpf`: the whole statement list, in recorded order. */
    method Statements(cpf: Cpf) returns (r: Result<seq<Operation>, Error>)
      requires Valid()
      ensures cpf !in Cpfs() ==> r == Failure(NotFound)
      ensures forall i :: 0 <= i < |customers| && customers[i].cpf == cpf ==>
                r == Success(customers[i].statements)
    {
      var found := Find(cpf);
      r := if found.Some? then Success(found.value.statements) else Failure(NotFound);
    }

    /**
     * `GET /statements/:cpf/date`: the entries made on the calendar day of
     * `date`, in recorded order; an empty list when there are none.
     */
    method StatementsOnDate(cpf: Cpf, date: int) returns (r: Result<seq<Operation>, Error>)
      requires Valid()
      ensures cpf !in Cpfs() ==> r == Failure(NotFound)
      ensures forall i :: 0 <= i < |customers| && customers[i].cpf == cpf ==>
                && r.Success?
                && (forall op :: op in r.value <==> op in customers[i].statements && DayOf(op.createdAt) == DayOf(date))
                && r.value == OnDay(customers[i].statements, DayOf(date))
    {
      var found := Find(cpf);
      r := if found.Some? then Success(OnDay(found.value.statements, DayOf(date))) else Failure(NotFound);
    }

    /** `PUT /account/:cpf`: replace the name of the customer with that CPF and nothing else. */
    method Rename(cpf: Cpf, name: string) returns (out: Outcome<Error>)
      requires Valid()
      modifies customers
      ensures out == if cpf in Cpfs() then Pass else Fail(NotFound)
      ensures forall i :: 0 <= i < |customers| ==>
                customers[i].name == if customers[i].cpf == cpf then name else old(customers[i].name)
      ensures forall i :: 0 <= i < |customers| ==> customers[i].statements == old(customers[i].statements)
    {
      var found := Find(cpf);
      match found
      case None =>
        out := Fail(NotFound);
      case Some(c) =>
        OnlyHolder(customers, FirstIndex(Cpfs(), cpf).value);
        c.name := name;
        out := Pass;
    }

    /** `GET /account/:cpf/balance`: the credits minus the debits of that customer's statements. */
    method GetBalance(cpf: Cpf) returns (r: Result<int, Error>)
      requires Valid()
      ensures cpf !in Cpfs() ==> r == Failure(NotFound)
      ensures forall i :: 0 <= i < |customers| && customers[i].cpf == cpf ==>
                r == Success(Credits(customers[i].statements) - Debits(customers[i].statements))
    {
      var found := Find(cpf);
      match found
      case None =>
        r := Failure(NotFound);
      case Some(c) =>
        BalanceIsCreditsMinusDebits(c.statements);
        r := Success(Balance(c.statements));
    }

    /**
     * `DELETE /account/:cpf` as written: once the CPF is found, the call
     * `customers.splice(customer, 1)` removes the FIRST customer of the
     * store, which is the one asked for only when it sits at position 0.
     */
    method Delete(cpf: Cpf) returns (out: Outcome<Error>)
      requires Valid()
      modifies this
      ensures Valid()
      ensures cpf !in old(Cpfs()) ==> out == Fail(NotFound) && customers == old(customers)
      ensures cpf in old(Cpfs()) ==> out == Pass && customers == old(customers)[1..]
      ensures cpf in old(Cpfs()) ==>
                (customers == RemoveAt(old(customers), FirstIndex(old(Cpfs()), cpf).value)
                 <==> FirstIndex(old(Cpfs()), cpf) == Some(0))
      ensures cpf in old(Cpfs()) ==> (cpf in Cpfs() <==> FirstIndex(old(Cpfs()), cpf) != Some(0))
    {
      var found := Find(cpf);
      match found
      case None =>
        out := Fail(NotFound);
      case Some(c) =>
        ghost var k := FirstIndex(Cpfs(), cpf).value;
        UniqueCustomers(customers);
        SpliceByObjectRemovesIffFirst(customers, k);
        SpliceByObjectKeepsKeyIffNotFirst(Cpfs(), k);
        SpliceByObjectDropsFirst(Cpfs());
        SpliceByObjectDropsFirst(customers);
        CpfsOfDropFirst(customers);
        customers := Splice(customers, ObjectAsStart, 1);
        out := Pass;
    }

    /**
     * The delete handler as evidently intended: remove the customer that
     * was found, so that a later lookup of its CPF fails.
     */
    method DeleteMatched(cpf: Cpf) returns (out: Outcome<Error>)
      requires Valid()
      modifies this
      ensures Valid()
      ensures cpf !in old(Cpfs()) ==> out == Fail(NotFound) && customers == old(customers)
      ensures cpf in old(Cpfs()) ==>
                && out == Pass
                && customers == RemoveAt(old(customers), FirstIndex(old(Cpfs()), cpf).value)
                && cpf !in Cpfs()
    {
      var found := Find(cpf);
      match found
      case None =>
        out := Fail(NotFound);
      case Some(c) =>
        var k := FirstIndex(Cpfs(), cpf).value;
        RemoveAtDropsKey(Cpfs(), k);
        CpfsOfRemoveAt(customers, k);
        customers := RemoveAt(customers, k);
        out := Pass;
    }
  }
}
