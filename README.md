# Bank transfers, flight booking and order placement, modelled in Dafny

This project models the sequential logic of three small Java concurrency demos.
Threads, executors, locks and printing are stripped away, and every operation
is treated as one atomic step.

- **Funds-transfer ledger** (`day8/BankTransactionApp.java`). A `BankAccount`
  has a fixed id and a balance that `deposit` and `withdraw` update in place.
  `withdraw` refuses, and changes nothing, when the balance does not cover the
  amount. A `BankTransactionSystem` keeps the accounts in a map keyed by id.
  `transferMoney` looks up both ids and does nothing if either is unknown.
  Otherwise it takes the lock of the lower id first, withdraws from the sending account
  and, if that succeeded, deposits to the destination.
  The module `Ledger` describes one transfer as a function on the map from id
  to balance (`Ledger.Transfer`). It also defines the total of all balances and
  the lock order. `BankTransaction` holds the two classes. Their methods are
  proved against `Ledger`.
- **Flight booking and search** (`day8/FlightBookingSystem.java`).
  `Flight.bookSeat` decrements the seat count if one is left.
  `FlightSearchTask.call` filters the flight list by source and destination,
  ignoring case, and keeps the list order. `bookTicket` books on the first
  flight whose number matches, ignoring case, and then stops. The loops are
  `while` loops proved against the pure functions `Search` and `FindFlight`.
- **Order placement** (`fullstack-main/fullstack-main/day4/ECommerceSystem.java`).
  `placeOrder` first rejects a product that is not in the inventory map, then
  rejects a quantity above the stock. Otherwise it overwrites the stock with
  stock minus quantity. The two exceptions are result variants. Stock and
  quantity are Java `int`s, so the subtraction wraps around at 32 bits.

`equalsIgnoreCase` is modelled as equality after ASCII lower-casing (module
`AsciiCase`). Money is whole units of currency held in an `int`.

In three places the Java code is more permissive than one might expect, and the model follows the code:

- The code does not check that an amount is non-negative, so a negative
  transfer moves money backwards. `Ledger.NegativeAmountOverdrawsDestination`
  shows that this can make the destination negative.
- `addAccount` overwrites an account already registered under the same id. It
  does not reject it.
- An unknown id in `transferMoney` is only printed. The model returns it as
  the outcome `InvalidAccount`.

Each method that prints its outcome (`transferMoney`, `bookTicket`) returns
that outcome instead.

## Model

| member | source | states |
|---|---|---|
| `AsciiCase.LowerChar` | day8/FlightBookingSystem.java:70-71 | Definition, no ensures: folds 'A'..'Z' to 'a'..'z' and keeps every other character. Its properties are stated by `AsciiCase.LowerCharSame`. |
| `AsciiCase.Lower` | day8/FlightBookingSystem.java:70-71 | The folded string has the same length, and each of its characters is the fold of the character at the same position. |
| `AsciiCase.EqualsIgnoreCase` | day8/FlightBookingSystem.java:98 | Definition, no ensures: `equalsIgnoreCase` as equality of the folded strings. Its properties are stated by `AsciiCase.EqualsIgnoreCaseCharwise` and `AsciiCase.EqualsIgnoreCaseEquivalence`. |
| `AsciiCase.LowerCharSame` | day8/FlightBookingSystem.java:70-71 | Case folding makes two characters equal exactly when they are equal or are the upper- and lower-case forms of one ASCII letter. |
| `AsciiCase.EqualsIgnoreCaseCharwise` | day8/FlightBookingSystem.java:70-71 | Two strings are equal ignoring case exactly when they have the same length and every pair of characters is equal after folding. |
| `AsciiCase.EqualsIgnoreCaseEquivalence` | day8/FlightBookingSystem.java:98 | Equality ignoring case is reflexive, symmetric and transitive. |
| `BankTransaction.BankAccount.constructor` | day8/BankTransactionApp.java:11-14 | A new account has the given id and initial balance. |
| `BankTransaction.BankAccount.Deposit` | day8/BankTransactionApp.java:24-31 | The balance goes up by exactly the amount, and no other field changes. |
| `BankTransaction.BankAccount.Withdraw` | day8/BankTransactionApp.java:33-44 | Returns true exactly when the old balance covers the amount. On true the balance goes down by the amount; on false it is unchanged. A balance that is not negative stays that way when the amount is not negative. |
| `BankTransaction.BankTransactionSystem.constructor` | day8/BankTransactionApp.java:53 | The registry starts empty and no lock has been taken. |
| `BankTransaction.BankTransactionSystem.AddAccount` | day8/BankTransactionApp.java:55-57 | The account is registered under its own id, replacing any earlier one. The balances map gains that entry, and every account stays registered under its own id. |
| `BankTransaction.BankTransactionSystem.TransferMoney` | day8/BankTransactionApp.java:59-85 | The new balances and the outcome are exactly `Ledger.Transfer` of the old balances. The registry is unchanged and the total of all balances is kept. Locks are taken only when both ids are registered: the lower id first, then the other. |
| `BankTransaction.RunDemo` | day8/BankTransactionApp.java:97-120 | Accounts 101/102/103 start at 1000/2000/1500. The transfers 101→102 of 300, 102→103 of 500 and 103→101 of 200 each report `Transferred`, and the balances end at 900/1800/1800. |
| `Ledger.FirstLock` | day8/BankTransactionApp.java:69 | Definition, no ensures: the id of the account locked first. Its properties are stated by `Ledger.LockOrderCanonical`. |
| `Ledger.SecondLock` | day8/BankTransactionApp.java:70 | Definition, no ensures: the id of the account locked second. Its properties are stated by `Ledger.LockOrderCanonical`. |
| `Ledger.Transfer` | day8/BankTransactionApp.java:59-85 | Definition, no ensures: one `transferMoney` call on the balances map, with its outcome. Its properties are stated by `Ledger.TransferEffect`, `Ledger.TransferConservesTotal` and `Ledger.TransferKeepsNonNegative`; `TransferMoney` is proved equal to it. |
| `Ledger.TransferAll` | day8/BankTransactionApp.java:108-110 | Definition, no ensures: transfers run one after another, as the demo submits them. Its properties are stated by `Ledger.TransferAllConservesTotal` and `Ledger.DemoAnyOrder`. |
| `Ledger.TransferEffect` | day8/BankTransactionApp.java:59-85 | Gives `InvalidAccount` exactly when an id is unknown, and `InsufficientFunds` exactly when the sending balance is below the amount; in both cases no balance changes. On success the sending account loses the amount and the destination gains it. A self-transfer leaves its account unchanged. Other accounts and the set of ids never change. |
| `Ledger.TransferConservesTotal` | day8/BankTransactionApp.java:74-80 | Every transfer, successful or not, leaves the sum of all balances unchanged. |
| `Ledger.TransferAllConservesTotal` | day8/BankTransactionApp.java:59-85 | Any sequence of transfers leaves the sum of all balances and the set of ids unchanged. |
| `Ledger.TransferKeepsNonNegative` | day8/BankTransactionApp.java:36-37 | With no negative balance and a non-negative amount, a transfer leaves no balance negative. |
| `Ledger.NegativeAmountOverdrawsDestination` | day8/BankTransactionApp.java:75-76 | A negative amount is accepted and can make the destination balance negative. |
| `Ledger.LockOrderCanonical` | day8/BankTransactionApp.java:68-70 | The first lock is the lower id and the second the higher. The order does not depend on which account is the sender. The two locks are exactly the two accounts, and for a self-transfer both are that account. |
| `Ledger.WaitChainIncreases` | day8/BankTransactionApp.java:68-73 | Along a chain of transfers, each holding its first lock and waiting for a second lock that the next one holds, the first-lock ids strictly increase. |
| `Ledger.NoCircularWait` | day8/BankTransactionApp.java:68-73 | No set of transfers can wait on each other in a ring, so the lock order rules out deadlock. |
| `Ledger.DemoAnyOrder` | day8/BankTransactionApp.java:101-110 | The three demo transfers, run in any of their orders, take {101:1000, 102:2000, 103:1500} to {101:900, 102:1800, 103:1800}. |
| `Ledger.DemoFailures` | day8/BankTransactionApp.java:60-79 | On the demo accounts, 101→102 of 5000 reports insufficient funds and 999→101 reports an unknown account. Neither changes a balance. |
| `FlightBooking.Flight.constructor` | day8/FlightBookingSystem.java:12-17 | A new flight has the given number, source, destination and seat count. |
| `FlightBooking.Flight.BookSeat` | day8/FlightBookingSystem.java:31-37 | The result and the new seat count are `BookOnce` of the old count. Nothing else changes. |
| `FlightBooking.BookOnce` | day8/FlightBookingSystem.java:31-37 | Definition, no ensures: one `bookSeat` call on a seat count. Its properties are stated by `FlightBooking.BookOnceEffect` and `FlightBooking.BookRepeatedlyCount`; `Flight.BookSeat` is proved equal to it. |
| `FlightBooking.BookOnceEffect` | day8/FlightBookingSystem.java:31-37 | A booking succeeds exactly when a seat is left and then takes exactly one; otherwise the count is unchanged. A count at zero or more never goes below zero. |
| `FlightBooking.BookRepeatedlyCount` | day8/FlightBookingSystem.java:31-37 | Of k bookings in a row, min(k, max(seats, 0)) succeed. The count drops by exactly that many, and a count starting at zero or more stays there or above. |
| `FlightBooking.Matches` | day8/FlightBookingSystem.java:70-71 | Definition, no ensures: source and destination both equal ignoring case. It is the filter condition of `FlightBooking.Search`. |
| `FlightBooking.Search` | day8/FlightBookingSystem.java:67-76 | Definition, no ensures: the matching flights in list order. Its properties are stated by `FlightBooking.SearchMembership`, `FlightBooking.SearchAppend` and `FlightBooking.SearchLength`; `FlightSearchTask.Call` is proved equal to it. |
| `FlightBooking.SearchMembership` | day8/FlightBookingSystem.java:67-76 | A flight is in the search result exactly when it is in the list and matches both source and destination, ignoring case. |
| `FlightBooking.SearchAppend` | day8/FlightBookingSystem.java:67-76 | Searching a concatenated list gives the first part's results followed by the second part's, so list order is kept. |
| `FlightBooking.SearchLength` | day8/FlightBookingSystem.java:67-76 | The result has no more flights than the list. |
| `FlightBooking.FlightSearchTask.constructor` | day8/FlightBookingSystem.java:60-64 | The task keeps the given source, destination and flight list. |
| `FlightBooking.FlightSearchTask.Call` | day8/FlightBookingSystem.java:67-76 | The list built by the loop is exactly `Search` of the flight list. The method modifies nothing. |
| `FlightBooking.FindFlight` | day8/FlightBookingSystem.java:97-98 | Returns the index of the first flight whose number matches, ignoring case: no earlier flight matches. Returns the list length when none matches. |
| `FlightBooking.FlightBookingSystem.constructor` | day8/FlightBookingSystem.java:84-90 | The four sample flights AI101, BA202, CX303 and DL404, as distinct new objects with their routes and seat counts. |
| `FlightBooking.FlightBookingSystem.SearchFlights` | day8/FlightBookingSystem.java:92-94 | Returns `Search` of the system's flights. |
| `FlightBooking.FlightBookingSystem.BookTicket` | day8/FlightBookingSystem.java:96-110 | Books only on the first flight whose number matches and reports whether a seat was left. Reports not-found when no number matches. Every other flight's seat count is unchanged, and all of them are when nothing matches. |
| `ECommerce.Sub32` | fullstack-main/fullstack-main/day4/ECommerceSystem.java:42 | Java `int` subtraction: the exact difference when it fits in 32 bits, and always equal to it modulo 2^32. |
| `ECommerce.ApplyOrder` | fullstack-main/fullstack-main/day4/ECommerceSystem.java:31-42 | Definition, no ensures: one `placeOrder` call on the inventory, with its outcome. Its properties are stated by `ECommerce.PlaceOrderFailures`, `ECommerce.PlaceOrderSuccess`, `ECommerce.NegativeQuantityRaisesStock` and `ECommerce.NegativeQuantityOverflows`; `ECommerceSystem.PlaceOrder` is proved equal to it. |
| `ECommerce.PlaceOrderFailures` | fullstack-main/fullstack-main/day4/ECommerceSystem.java:32-39 | An unknown product reports not-found for any quantity. A known product with quantity above its stock reports out-of-stock with that stock. Neither failure changes the inventory. |
| `ECommerce.PlaceOrderSuccess` | fullstack-main/fullstack-main/day4/ECommerceSystem.java:31-42 | An order succeeds exactly when the product is known and the quantity does not exceed its stock. The set of products and the other stocks never change. With a non-negative quantity, the stock drops by exactly the quantity and stays at zero or more. |
| `ECommerce.NegativeQuantityRaisesStock` | fullstack-main/fullstack-main/day4/ECommerceSystem.java:37-42 | Against a stock of zero or more, a negative quantity is accepted and raises the stock, provided the sum fits in an `int`. |
| `ECommerce.NegativeQuantityOverflows` | fullstack-main/fullstack-main/day4/ECommerceSystem.java:42 | An order of -2147483647 against a stock of 5 succeeds, and the stock wraps around to -2147483644. |
| `ECommerce.ECommerceSystem.constructor` | fullstack-main/fullstack-main/day4/ECommerceSystem.java:24-29 | The sample inventory: Laptop 5, Phone 3, Headphones 10. |
| `ECommerce.ECommerceSystem.PlaceOrder` | fullstack-main/fullstack-main/day4/ECommerceSystem.java:31-44 | The new inventory and the outcome are exactly `ApplyOrder` of the old inventory: not-found checked first, then out-of-stock, then the stock overwritten in place. |

## Left out

- Locks, `synchronized`, `ReentrantLock`, `getLock`, executors, futures, thread start and join, and `awaitTermination` are not modelled. Each operation is one atomic step. For the lock order, only the ids of the accounts whose locks a transfer takes are recorded (`lockTrace`), in order; lock release is not recorded.
- `BankTransaction.RunDemo` runs the three demo transfers only in the order the Java program submits them. The concurrent runs in other orders are covered by `Ledger.DemoAnyOrder` on the pure model.
- Money is held in `double` in the Java code. It is modelled as an unbounded integer, so rounding is not modelled.
- The getters (`getAccountId`, `getBalance`, `getFlightNumber`, `getSource`, `getDestination`, `getAvailableSeats`) are the fields themselves. Dafny fields are readable directly, so there are no separate members.
- Static state is modelled as an instance made by a constructor: the `flights` list and its static initialiser, and the `products` map and its static initialiser.
- `searchFlights` submits a task to an executor and returns a `Future`. The model runs the task directly and returns its result.
- `FlightSearchTask.call` returns a fresh `ArrayList`. The model returns a sequence of the same flight objects.
- Printing is left out: `printBalances`, `toString`, every `System.out.println`, and `FlightBookingSystem.shutdown`.
- The `main` methods of `FlightBookingSystem` and `ECommerceSystem` are left out, including the `Scanner`/`Integer.parseInt` input and `NumberFormatException`. The bank demo's `main` is `BankTransaction.RunDemo`.
- `equalsIgnoreCase` uses Unicode case folding in Java. The model folds ASCII letters only.
- Seat counts and account ids are unbounded integers. A seat count is decremented only when it is positive, and ids are only compared, so 32-bit overflow cannot happen in either.
- `day8/OrderProcessingSystem.java`, `day8/CountdownTimerApp.java` and `day8/MemoryLeakDetector.java` are not part of this model. They are concurrency plumbing, runtime introspection and I/O with no sequential state update to state.
