# Bank account model

A Dafny model of the `Account` class of a small Java banking application.
An account has an id, the holder's first and last name, and a balance. The id
comes from a process-wide counter, `lastId`. The constructor rejects a null or
empty first name, and then a null or empty last name. Only after both checks
pass does it advance the counter and take the new value as the id. The balance
starts at 0. `deposit` rejects an amount that is not positive. `withdrawal`
rejects an amount that is not positive, and then an amount larger than the
balance. Every rejection is an `IllegalArgumentException` that leaves the
object as it was. The name setters assign whatever they are given.

Two modules:

- `AccountSpec` (AccountSpec.dfy) is the account as a pure state machine. It
  holds `Construct`, `Deposit`, `Withdrawal` and `Apply` (one call of any
  kind), and `Run` (a sequence of calls). It also holds the lemmas about every
  sequence of calls: the balance is never negative, the id never changes, only
  deposits and withdrawals move the balance, the names are the last ones set,
  and successive constructions hand out strictly increasing ids.
- `Accounts` (Account.dfy) is the Java class as a Dafny class. It has an `id`
  constant and `firstName`, `lastName` and `balance` fields that its methods
  update in place. The static counter is a separate `IdCounter` object. Each
  method's postcondition equates the new state and the outcome with the
  `AccountSpec` function applied to the old state. So the lemmas above hold for
  the objects too. `UsageScenario` shows a client that relies only on those
  contracts.

Modelling choices:

- A Java `String` reference is `Option<string>`, with `None` for `null`.
- An exception is a failure value: `Outcome.Err` for the void methods and
  `Result.Failure` for the constructor. Each carries a tag for the message
  (`BlankFirstName`, `BlankLastName`, `NonPositiveAmount`, `InsufficientFunds`).
- A Java constructor can throw, but a Dafny constructor cannot fail. So
  `new Account(...)` is the static method `Account.Create`. It runs the two name
  checks and then calls the constructor `Account.Init`, which requires two
  non-blank names, draws the id from the counter and sets the fields.
- `lastId` and `id` are Java `int`s, modelled as `Int32`. `++lastId` wraps from
  2147483647 to -2147483648, as Java's does. Ids increase strictly until then
  (`IdsIncrease`). `IdWrapsAtIntMax` shows the wrap.
- `balance` is a `real`. It stands for the Java `double` (see "Left out").

The constructor refuses blank names, but the setters do not validate. So a name
can become null or empty after construction. The model follows the code here.
`SettersAcceptBlank` states that a setter accepts a blank name.

## Model

| member | source | states |
|---|---|---|
| `AccountSpec.Construct` | src/Account.java:12-23 | succeeds iff both names are non-null and non-empty; a blank first name is reported before the last name; a failure leaves the counter unchanged; a success advances the counter once, takes the new value as the id, stores both names and a zero (hence non-negative) balance |
| `AccountSpec.Deposit` | src/Account.java:37-42 | succeeds iff amount > 0, then adds amount to the balance and changes no other field; otherwise fails with the non-positive-amount error and changes nothing; never lowers the balance and keeps it non-negative |
| `AccountSpec.Withdrawal` | src/Account.java:44-52 | succeeds iff 0 < amount <= balance; the positivity check comes first, the insufficient-funds error only for a positive amount above the balance; a failure changes nothing; a success subtracts amount and leaves a non-negative balance; never raises the balance |
| `AccountSpec.Apply` | src/Account.java:29-52 | any single call keeps the id, keeps a non-negative balance, and changes nothing when it fails; deposits and withdrawals leave the names alone; each setter always succeeds, sets only its own name and leaves the balance alone |
| `AccountSpec.RunKeepsSolvent` | src/Account.java:37-52 | from a non-negative balance, every sequence of calls ends with a non-negative balance |
| `AccountSpec.RunKeepsId` | src/Account.java:7 | no sequence of calls changes the id (the field is final) |
| `AccountSpec.ConstructedAccountInvariant` | src/Account.java:19-22 | for an account built from two non-blank names, any later sequence of calls leaves the balance non-negative and the id equal to the one the constructor drew |
| `AccountSpec.BalanceIgnoresSetters` | src/Account.java:29-52 | the final balance depends only on the deposits and withdrawals: the same calls with every setter removed end with the same balance |
| `AccountSpec.RunNames` | src/Account.java:29-35 | after any sequence of calls each name is the one passed to the last call of its own setter, or the initial one if there was no such call |
| `AccountSpec.SettersAcceptBlank` | src/Account.java:29-35 | a setter given a null or empty name succeeds and stores it |
| `AccountSpec.IdsIncrease` | src/Account.java:13-19 | over any sequence of constructor calls whose valid requests draw no more ids than remain below the largest int: one account is created per request with two non-blank names, in order, carrying that request's names and a zero balance; the counter advances once per created account and not at all for a refused one; the ids handed out are strictly increasing, above the starting counter and at most the final one |
| `AccountSpec.IdWrapsAtIntMax` | src/Account.java:19 | with the counter at 2147483647 the next account gets id -2147483648 |
| `Accounts.IdCounter.constructor` | src/Account.java:6 | the counter starts at 0 |
| `Accounts.Account.Init` | src/Account.java:19-22 | callable only with two non-blank names; advances the counter by one (`++lastId`, with Java's wrap) and gives the object that id, both names and a zero balance, as `Construct` does on success |
| `Accounts.Account.Create` | src/Account.java:12-23 | changes the counter and returns the fresh account or the error exactly as `Construct` says; a new account satisfies the invariant |
| `Accounts.Account.GetBalance` | src/Account.java:25-27 | returns the balance and modifies nothing; the result is non-negative under the invariant |
| `Accounts.Account.SetFirstName` | src/Account.java:29-31 | may modify only `firstName`; the new state is `Apply` of the setter call on the old state |
| `Accounts.Account.SetLastName` | src/Account.java:33-35 | may modify only `lastName`; the new state is `Apply` of the setter call on the old state |
| `Accounts.Account.Deposit` | src/Account.java:37-42 | may modify only `balance`; the new state and the outcome are those of `Deposit` on the old state; keeps the invariant |
| `Accounts.Account.Withdrawal` | src/Account.java:44-52 | may modify only `balance`; the new state and the outcome are those of `Withdrawal` on the old state; keeps the invariant |

## Left out

- `toString` is not modelled. It is `String.format` with a locale-dependent thousands separator and rounding of a double to two decimals: library formatting, not account logic.
- `Accounts.Account.Deposit`: `balance` is a `real`, not an IEEE `double`. Rounding, infinities and NaN are not modelled. In Java a NaN amount passes both guards of `deposit` and `withdrawal` and makes the balance NaN, which the non-negativity invariant proved here does not cover.
- `Accounts.Account.Withdrawal`: the same `real`-for-`double` abstraction as `Deposit`.
- `AccountSpec.Construct`: the Java guard `name == ""` compares references, so it rejects only the interned empty literal. A non-interned empty string would pass it. The model rejects every empty name (`|name| == 0`).
- The static counter is shared by all threads in Java. The model allocates ids sequentially; there is no concurrency in the code.
- Exception message texts are reduced to one error tag per message.
