/** The `Account` class of src/Account.java as a Dafny class whose methods
    update its fields in place.  Each method is proved against the function
    of module AccountSpec that describes it, so the lemmas proved there hold
    of every sequence of calls on an object.
 */
module Accounts {
  import opened AccountSpec

  /** The static field `Account.lastId`: the last id handed out.  Java has
      one per process; here it is an object the constructor is given. */
  class IdCounter {
    var lastId: Int32

    constructor ()
      ensures lastId == 0
    {
      lastId := 0;
    }
  }

  class Account {
    const id: Int32
    var firstName: JString
    var lastName: JString
    var balance: real

    /** The fields as a value. */
    function State(): AccountState
      reads this
    {
      AccountState(id, firstName, lastName, balance)
    }

    /** The object invariant: the balance is not negative. */
    predicate Valid()
      reads this
    {
      Solvent(State())
    }

    /** The part of the Java constructor after both name checks: draws the
        next id from the counter and stores the names and a zero balance. */
    constructor Init(counter: IdCounter, firstName: JString, lastName: JString)
      requires !IsBlank(firstName) && !IsBlank(lastName)
      modifies counter
      ensures counter.lastId == NextId(old(counter.lastId))
      ensures State() == Construct(old(counter.lastId), firstName, lastName).account.value
    {
      counter.lastId := NextId(counter.lastId);
      this.id := counter.lastId;
      this.firstName := firstName;
      this.lastName := lastName;
      this.balance := 0.0;
    }

    /** `new Account(firstName, lastName)`: checks the first name, then the
        last name, and only then advances the counter and builds the object. */
    static method Create(counter: IdCounter, firstName: JString, lastName: JString) returns (r: Result<Account>)
      modifies counter
      ensures counter.lastId == Construct(old(counter.lastId), firstName, lastName).lastId
      ensures r.Success? <==> Construct(old(counter.lastId), firstName, lastName).account.Success?
      ensures r.Failure? ==> r.error == Construct(old(counter.lastId), firstName, lastName).account.error
      ensures r.Success? ==>
        fresh(r.value) && r.value.Valid() &&
        r.value.State() == Construct(old(counter.lastId), firstName, lastName).account.value
    {
      if IsBlank(firstName) {
        return Failure(BlankFirstName);
      }
      if IsBlank(lastName) {
        return Failure(BlankLastName);
      }
      var a := new Account.Init(counter, firstName, lastName);
      r := Success(a);
    }

    /** `getBalance()`: reads the balance and changes nothing. */
    method GetBalance() returns (b: real)
      ensures b == State().balance
      ensures Valid() ==> b >= 0.0
    {
      b := balance;
    }

    /** `setFirstName(name)`: no validation. */
    method SetFirstName(name: JString)
      modifies this`firstName
      ensures Step(State(), Ok) == Apply(old(State()), SetFirstNameCall(name))
    {
      firstName := name;
    }

    /** `setLastName(name)`: no validation. */
    method SetLastName(name: JString)
      modifies this`lastName
      ensures Step(State(), Ok) == Apply(old(State()), SetLastNameCall(name))
    {
      lastName := name;
    }

    /** `deposit(amount)`. */
    method Deposit(amount: real) returns (outcome: Outcome)
      modifies this`balance
      ensures Step(State(), outcome) == Apply(old(State()), DepositCall(amount))
      ensures old(Valid()) ==> Valid()
    {
      if amount <= 0.0 {
        return Err(NonPositiveAmount);
      }
      balance := balance + amount;
      outcome := Ok;
    }

    /** `withdrawal(amount)`. */
    method Withdrawal(amount: real) returns (outcome: Outcome)
      modifies this`balance
      ensures Step(State(), outcome) == Apply(old(State()), WithdrawalCall(amount))
      ensures old(Valid()) ==> Valid()
    {
      if amount <= 0.0 {
        return Err(NonPositiveAmount);
      }
      if amount > balance {
        return Err(InsufficientFunds);
      }
      balance := balance - amount;
      outcome := Ok;
    }
  }

  /** A client that relies only on the contracts above.  On a fresh counter,
      two rejected constructions draw no id; the first good one gets id 1; a
      non-positive deposit and an overdraft change nothing; a second account
      gets id 2 and leaves the first one alone. */
  method UsageScenario()
  {
    var counter := new IdCounter();
    var r := Account.Create(counter, Some("John"), Some(""));
    assert r == Failure(BlankLastName) && counter.lastId == 0;
    r := Account.Create(counter, Some(""), None);
    assert r == Failure(BlankFirstName) && counter.lastId == 0;

    r := Account.Create(counter, Some("John"), Some("Smith"));
    assert r.Success?;
    var a := r.value;
    assert a.id == 1 && counter.lastId == 1;

    var o := a.Deposit(-5.0);
    assert o == Err(NonPositiveAmount) && a.balance == 0.0;
    o := a.Deposit(100.0);
    var b := a.GetBalance();
    assert b == 100.0;
    o := a.Withdrawal(150.0);
    assert o == Err(InsufficientFunds) && a.balance == 100.0;
    o := a.Withdrawal(50.0);
    b := a.GetBalance();
    assert o == Ok && b == 50.0;

    r := Account.Create(counter, Some("Jane"), Some("Doe"));
    assert r.Success? && r.value.id == 2 && r.value != a && a.id == 1;
  }
}
