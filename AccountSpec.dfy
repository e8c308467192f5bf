/** The bank account of src/Account.java as a pure state machine.

    An account holds an id drawn from a process-wide counter, the holder's
    first and last name and a balance.  The constructor validates both names
    before it draws the id; `deposit` and `withdrawal` either change the
    balance or reject the call, and a rejected call changes nothing.  The name
    setters always succeed.  The class in Account.dfy is proved against the
    functions of this module, and the lemmas here state what follows for any
    sequence of calls: the balance is never negative, the id never changes,
    only the money operations move the balance, and ids handed out by
    successive constructions strictly increase.
 */
module AccountSpec {

  /** Java's `int`, the type of `lastId` and `id`. */
  newtype Int32 = x: int | -0x8000_0000 <= x < 0x8000_0000

  const IntMin: Int32 := -0x8000_0000
  const IntMax: Int32 := 0x7fff_ffff

  /** `++lastId` on a Java `int`: two's-complement wrap from the largest
      value to the smallest. */
  function NextId(lastId: Int32): Int32
  {
    if lastId == IntMax then IntMin else lastId + 1
  }

  datatype Option<T> = None | Some(value: T)

  /** A Java `String` reference: `None` is `null`. */
  type JString = Option<string>

  /** The constructor's guard on a name: null or empty. */
  predicate IsBlank(name: JString)
  {
    name.None? || |name.value| == 0
  }

  /** The `IllegalArgumentException`s the class throws, one tag per message. */
  datatype AccountError =
    | BlankFirstName      // "First name cannot be null or blank."
    | BlankLastName       // "Last name cannot be null or blank."
    | NonPositiveAmount   // "... amount must be greater than zero."
    | InsufficientFunds   // "Insufficient funds."

  /** How a void method call ended: normally, or with an exception. */
  datatype Outcome = Ok | Err(error: AccountError)

  datatype Result<T> = Success(value: T) | Failure(error: AccountError)

  /** The fields of one account; `balance` stands for the Java `double`. */
  datatype AccountState = AccountState(id: Int32, firstName: JString, lastName: JString, balance: real)

  /** The invariant the guards keep: the balance is never negative. */
  predicate Solvent(s: AccountState)
  {
    s.balance >= 0.0
  }

  /** The state after a call, together with how the call ended. */
  datatype Step = Step(state: AccountState, outcome: Outcome)

  /** The counter after a constructor call, together with the new account
      or the exception. */
  datatype Creation = Creation(lastId: Int32, account: Result<AccountState>)

  /** `new Account(firstName, lastName)` with the counter at `lastId`. */
  function Construct(lastId: Int32, firstName: JString, lastName: JString): (r: Creation)
    ensures r.account.Success? <==> !IsBlank(firstName) && !IsBlank(lastName)
    ensures IsBlank(firstName) ==> r.account == Failure(BlankFirstName)
    ensures !IsBlank(firstName) && IsBlank(lastName) ==> r.account == Failure(BlankLastName)
    ensures r.account.Failure? ==> r.lastId == lastId
    ensures r.account.Success? ==>
      r.lastId == NextId(lastId) &&
      r.account.value == AccountState(r.lastId, firstName, lastName, 0.0) &&
      Solvent(r.account.value)
  {
    if IsBlank(firstName) then Creation(lastId, Failure(BlankFirstName))
    else if IsBlank(lastName) then Creation(lastId, Failure(BlankLastName))
    else
      var id := NextId(lastId);
      Creation(id, Success(AccountState(id, firstName, lastName, 0.0)))
  }

  /** `deposit(amount)`. */
  function Deposit(s: AccountState, amount: real): (r: Step)
    ensures r.outcome.Ok? <==> amount > 0.0
    ensures r.outcome.Err? ==> r.outcome.error == NonPositiveAmount && r.state == s
    ensures r.outcome.Ok? ==> r.state == s.(balance := s.balance + amount)
    ensures r.state.balance >= s.balance
    ensures Solvent(s) ==> Solvent(r.state)
  {
    if amount <= 0.0 then Step(s, Err(NonPositiveAmount))
    else Step(s.(balance := s.balance + amount), Ok)
  }

  /** `withdrawal(amount)`: the positivity check comes before the funds check. */
  function Withdrawal(s: AccountState, amount: real): (r: Step)
    ensures r.outcome.Ok? <==> 0.0 < amount <= s.balance
    ensures amount <= 0.0 ==> r.outcome == Err(NonPositiveAmount)
    ensures 0.0 < amount && s.balance < amount ==> r.outcome == Err(InsufficientFunds)
    ensures r.outcome.Err? ==> r.state == s
    ensures r.outcome.Ok? ==> r.state == s.(balance := s.balance - amount) && Solvent(r.state)
    ensures r.state.balance <= s.balance
    ensures Solvent(s) ==> Solvent(r.state)
  {
    if amount <= 0.0 then Step(s, Err(NonPositiveAmount))
    else if amount > s.balance then Step(s, Err(InsufficientFunds))
    else Step(s.(balance := s.balance - amount), Ok)
  }

  /** The calls that may change an existing account. */
  datatype Call =
    | DepositCall(amount: real)
    | WithdrawalCall(amount: real)
    | SetFirstNameCall(name: JString)
    | SetLastNameCall(name: JString)
  {
    predicate MovesMoney()
    {
      DepositCall? || WithdrawalCall?
    }
  }

  /** One call on an account.  The setters take any value, blank or null. */
  function Apply(s: AccountState, c: Call): (r: Step)
    ensures r.state.id == s.id
    ensures r.outcome.Err? ==> r.state == s
    ensures Solvent(s) ==> Solvent(r.state)
    ensures c.MovesMoney() ==> r.state.firstName == s.firstName && r.state.lastName == s.lastName
    ensures !c.MovesMoney() ==> r.outcome == Ok && r.state.balance == s.balance
    ensures c.SetFirstNameCall? ==> r.state.firstName == c.name && r.state.lastName == s.lastName
    ensures c.SetLastNameCall? ==> r.state.lastName == c.name && r.state.firstName == s.firstName
  {
    match c
    case DepositCall(amount) => Deposit(s, amount)
    case WithdrawalCall(amount) => Withdrawal(s, amount)
    case SetFirstNameCall(name) => Step(s.(firstName := name), Ok)
    case SetLastNameCall(name) => Step(s.(lastName := name), Ok)
  }

  /** The state after a sequence of calls; a rejected call leaves the state
      as it was and the next call proceeds from there. */
  function Run(s: AccountState, calls: seq<Call>): AccountState
    decreases |calls|
  {
    if calls == [] then s else Run(Apply(s, calls[0]).state, calls[1..])
  }

  /** Every call preserves a non-negative balance, so every sequence does. */
  lemma {:induction false} RunKeepsSolvent(s: AccountState, calls: seq<Call>)
    requires Solvent(s)
    ensures Solvent(Run(s, calls))
    decreases |calls|
  {
    if calls != [] {
      RunKeepsSolvent(Apply(s, calls[0]).state, calls[1..]);
    }
  }

  /** No call changes the id. */
  lemma {:induction false} RunKeepsId(s: AccountState, calls: seq<Call>)
    ensures Run(s, calls).id == s.id
    decreases |calls|
  {
    if calls != [] {
      RunKeepsId(Apply(s, calls[0]).state, calls[1..]);
    }
  }

  /** Whatever is done to an account once it is constructed, its balance is
      never negative and its id is the one the constructor drew. */
  lemma {:induction false} ConstructedAccountInvariant(lastId: Int32, firstName: JString, lastName: JString, calls: seq<Call>)
    requires !IsBlank(firstName) && !IsBlank(lastName)
    ensures Construct(lastId, firstName, lastName).account.Success?
    ensures var a := Construct(lastId, firstName, lastName).account.value;
      Solvent(Run(a, calls)) && Run(a, calls).id == NextId(lastId)
  {
    var a := Construct(lastId, firstName, lastName).account.value;
    RunKeepsSolvent(a, calls);
    RunKeepsId(a, calls);
  }

  /** The deposits and withdrawals of a sequence of calls, in order. */
  function MoneyCalls(calls: seq<Call>): (r: seq<Call>)
    ensures forall i :: 0 <= i < |r| ==> r[i].MovesMoney()
    decreases |calls|
  {
    if calls == [] then []
    else if calls[0].MovesMoney() then [calls[0]] + MoneyCalls(calls[1..])
    else MoneyCalls(calls[1..])
  }

  /** The balance depends only on the deposits and withdrawals: dropping
      every setter call (and starting from any state with the same balance)
      ends with the same balance. */
  lemma {:induction false} BalanceIgnoresSetters(s: AccountState, t: AccountState, calls: seq<Call>)
    requires s.balance == t.balance
    ensures Run(s, calls).balance == Run(t, MoneyCalls(calls)).balance
    decreases |calls|
  {
    if calls != [] {
      var c, rest := calls[0], calls[1..];
      var s' := Apply(s, c).state;
      if c.MovesMoney() {
        var t' := Apply(t, c).state;
        assert s'.balance == t'.balance;
        assert MoneyCalls(calls)[1..] == MoneyCalls(rest);
        BalanceIgnoresSetters(s', t', rest);
      } else {
        BalanceIgnoresSetters(s', t, rest);
      }
    }
  }

  /** The first name after a sequence of calls: the one given to the last
      `setFirstName`, or `initial` when there is none. */
  function LastFirstName(initial: JString, calls: seq<Call>): JString
    decreases |calls|
  {
    if calls == [] then initial
    else if calls[|calls| - 1].SetFirstNameCall? then calls[|calls| - 1].name
    else LastFirstName(initial, calls[..|calls| - 1])
  }

  /** The last name after a sequence of calls, likewise. */
  function LastLastName(initial: JString, calls: seq<Call>): JString
    decreases |calls|
  {
    if calls == [] then initial
    else if calls[|calls| - 1].SetLastNameCall? then calls[|calls| - 1].name
    else LastLastName(initial, calls[..|calls| - 1])
  }

  /** Running a sequence of calls and then one more call. */
  lemma {:induction false} RunSnoc(s: AccountState, calls: seq<Call>, c: Call)
    ensures Run(s, calls + [c]) == Apply(Run(s, calls), c).state
    decreases |calls|
  {
    if calls != [] {
      assert (calls + [c])[1..] == calls[1..] + [c];
      RunSnoc(Apply(s, calls[0]).state, calls[1..], c);
    }
  }

  /** Each setter replaces only its own field, and nothing else writes the
      names: the names after any sequence of calls are the last ones set. */
  lemma {:induction false} RunNames(s: AccountState, calls: seq<Call>)
    ensures Run(s, calls).firstName == LastFirstName(s.firstName, calls)
    ensures Run(s, calls).lastName == LastLastName(s.lastName, calls)
    decreases |calls|
  {
    if calls != [] {
      var init, c := calls[..|calls| - 1], calls[|calls| - 1];
      assert calls == init + [c];
      RunSnoc(s, init, c);
      RunNames(s, init);
    }
  }

  /** The setters do not validate: a name can be made blank after
      construction even though the constructor refuses a blank one. */
  lemma SettersAcceptBlank(s: AccountState, name: JString)
    requires IsBlank(name)
    ensures Apply(s, SetFirstNameCall(name)) == Step(s.(firstName := name), Ok)
    ensures Apply(s, SetLastNameCall(name)) == Step(s.(lastName := name), Ok)
  {
  }

  /** The names passed to a sequence of constructor calls. */
  datatype Request = Request(firstName: JString, lastName: JString)

  /** The counter after a sequence of constructor calls, and the accounts
      created, in order. */
  datatype Allocation = Allocation(lastId: Int32, created: seq<AccountState>)

  function ConstructAll(lastId: Int32, requests: seq<Request>): Allocation
    decreases |requests|
  {
    if requests == [] then Allocation(lastId, [])
    else
      var c := Construct(lastId, requests[0].firstName, requests[0].lastName);
      var rest := ConstructAll(c.lastId, requests[1..]);
      if c.account.Success? then Allocation(rest.lastId, [c.account.value] + rest.created)
      else rest
  }

  /** The requests the constructor accepts, in order: those with two
      non-blank names. */
  function ValidRequests(requests: seq<Request>): (r: seq<Request>)
    ensures |r| <= |requests|
    ensures forall k :: 0 <= k < |r| ==> !IsBlank(r[k].firstName) && !IsBlank(r[k].lastName)
    decreases |requests|
  {
    if requests == [] then []
    else if IsBlank(requests[0].firstName) || IsBlank(requests[0].lastName) then ValidRequests(requests[1..])
    else [requests[0]] + ValidRequests(requests[1..])
  }

  /** As long as the valid requests draw no more ids than remain below
      Java's largest `int`: one account is created per valid request, in
      order, with that request's names and a zero balance; the counter
      advances by exactly one per account (failed constructions draw no id);
      and the ids handed out are strictly increasing, all above the starting
      counter and at most the final one. */
  lemma {:induction false} IdsIncrease(lastId: Int32, requests: seq<Request>)
    requires lastId as int + |ValidRequests(requests)| <= IntMax as int
    ensures var a := ConstructAll(lastId, requests);
      var v := ValidRequests(requests);
      |a.created| == |v| &&
      a.lastId as int == lastId as int + |a.created| &&
      (forall k :: 0 <= k < |a.created| ==>
         a.created[k].firstName == v[k].firstName &&
         a.created[k].lastName == v[k].lastName &&
         a.created[k].balance == 0.0) &&
      (forall i :: 0 <= i < |a.created| ==> lastId < a.created[i].id <= a.lastId) &&
      (forall i, j :: 0 <= i < j < |a.created| ==> a.created[i].id < a.created[j].id)
    decreases |requests|
  {
    if requests != [] {
      var c := Construct(lastId, requests[0].firstName, requests[0].lastName);
      IdsIncrease(c.lastId, requests[1..]);
    }
  }

  /** Past Java's largest `int` the counter wraps, and the next account gets
      an id below every id handed out before. */
  lemma IdWrapsAtIntMax(firstName: JString, lastName: JString)
    requires !IsBlank(firstName) && !IsBlank(lastName)
    ensures Construct(IntMax, firstName, lastName).account.Success?
    ensures Construct(IntMax, firstName, lastName).account.value.id == IntMin
  {
  }
}
