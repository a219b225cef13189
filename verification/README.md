# Bank chaincode ledger — a Dafny model

The Hyperledger Fabric chaincode `SimpleChaincode` (`chaincode/bank.go`) keeps
account balances in the ledger's key-value state. Each account is one entry:
the account name is the key, the balance printed in decimal is the value.
Three entry points each recognise one function:

- `Init` runs `createAccount [name1, balance1, name2, balance2]`.
- `Query` runs `getBalance [name]`.
- `Invoke` runs `transferFunds [src, dst, amount]`.

This project models those three operations over an immutable
`map<string, string>` store. It also models the Go library functions they
depend on: `strconv.Atoi` and `strconv.Itoa` on a 64-bit platform, and the
64-bit wrap-around of `+=` and `-=` on Go's `int`.

Modules:

- `GoInt` (`goint.dfy`): the int64/uint64 ranges and `Wrap64`, which gives the value a Go `int` addition stores.
- `Strconv` (`strconv.dfy`): `Atoi`, written the way `ParseInt(s, 10, 0)` computes it.
  - This covers the value Go returns next to an error: 0 on a syntax error, and the nearest 64-bit bound on a range error.
  - It also covers `ParseUint`'s digit-by-digit overflow check. That check reports a range error before it looks at a later non-digit.
  - `Itoa`, an independent grammar of signed decimals, and the lemmas tying the three together.
- `StrconvScan` (`strconv_scan.dfy`): the loops `Atoi` actually runs. These are the fast path for 1 to 18 characters, `ParseInt`, and `ParseUint` with its uint64 cutoff. Each is proved to compute `Strconv.Atoi`.
- `Bank` (`bank.dfy`): the store, the three operations, and the three entry points.
  - `GetState` of a key never written returns nil, seen as `""`.
  - A `Fault` value names the stub call, if any, that returns an error. Calls are numbered in program order. The operation stops there, and writes made before that call stay in place.
- `BankProperties` (`bank_properties.dfy`): properties over whole stores.
  - createAccount's writes and its round trip through getBalance.
  - What transferFunds does to the two balances it touches.
  - The lenient decoding of stored balances.
  - The partial writes that a storage failure leaves behind.
  - A well-formedness invariant of the ledger.
  - The Alice/Bob session.

Two consequences of the code worth knowing:

- A missing or unparseable stored balance reads as 0 in transferFunds. It does not cause an error.
- A transfer whose source and destination are the same account adds the amount to that account. Conservation holds only between two different accounts, and then modulo 2^64.

## Model

| member | source | states |
|---|---|---|
| GoInt.Wrap64 | chaincode/bank.go:191-194 | for any exact sum or difference of two 64-bit ints, the stored `int` is in the 64-bit range, is congruent to the exact result modulo 2^64, and equals it when the exact result fits |
| GoInt.WrapUnique | chaincode/bank.go:191-194 | any 64-bit value congruent to `x` modulo 2^64 is `Wrap64(x)`, so the wrap-around is pinned down by its contract |
| Strconv.ParseUint | chaincode/bank.go:169 | the unsigned scan yields a value in uint64 range; a syntax error comes with 0 and a range error with 2^64-1 |
| Strconv.Atoi | chaincode/bank.go:41-51 | Atoi's value is always a 64-bit int; with a syntax error it is 0, with a range error it is MinInt64 or MaxInt64 |
| Strconv.AtoiAccepts | chaincode/bank.go:41-51 | Atoi reports no error exactly when the text is an optional sign, at least one digit and nothing else, with a value in int64 range; it then yields that value |
| Strconv.AtoiOutOfRange | chaincode/bank.go:41-51 | a well-formed decimal outside int64 is a range error, clamped to the bound on the side of its sign |
| Strconv.AtoiSyntaxError | chaincode/bank.go:169 | a malformed text of fewer than 20 characters after its sign parses as 0 with a syntax error |
| Strconv.ItoaCanonical | chaincode/bank.go:60 | Itoa prints a canonical decimal (no `+`, no leading zero, no `-0`) that denotes its argument |
| Strconv.CanonicalIffFixed | chaincode/bank.go:60 | a decimal is canonical if and only if printing its value gives the same text back |
| Strconv.AtoiItoa | chaincode/bank.go:41-60 | decimal round trip: Atoi(Itoa(n)) is n with no error, for every 64-bit n |
| Strconv.ItoaAtoi | chaincode/bank.go:41-60 | printing a parsed balance gives canonical text that parses to the same result, and gives back the input when it was canonical |
| Strconv.NormaliseExample | chaincode/bank.go:41-60 | `+007` parses to 7 and is stored as `7`; `-0` is stored as `0` |
| StrconvScan.ScanAtoi | chaincode/bank.go:148-151 | Atoi's fast path over at most 18 characters (Go counts bytes; the result is the same, since the method equals `Atoi` on every input), and its fallback to ParseInt, return exactly the declarative `Atoi` result |
| StrconvScan.ScanParseInt | chaincode/bank.go:148-151 | ParseInt's sign handling and 64-bit range check return exactly the declarative `Atoi` result |
| StrconvScan.ScanUint | chaincode/bank.go:148-151 | ParseUint's loop, with its uint64 cutoff and wrapped-addition check, returns exactly the declarative `ParseUint` result |
| Bank.Balance | chaincode/bank.go:163-169 | the balance transferFunds reads (Atoi with its error dropped) is always a 64-bit int |
| Bank.CreateAccount | chaincode/bank.go:27-80 | success iff 4 arguments, both balances parse, and no stub call fails; a rejected argument list leaves the store untouched; only the two named keys can change or appear; a wrong argument count is a wrong-count error and an unparseable balance a not-an-integer error naming index 1 or 3, checked in that order before any stub call; a failing stub call is a storage failure |
| Bank.WriteAccounts | chaincode/bank.go:58-78 | the two writes succeed unless one of the two PutState calls fails, and touch no key but the two names; every failure is a storage failure |
| Bank.GetBalance | chaincode/bank.go:91-118 | never changes the store; succeeds iff exactly one argument and the read does not fail; any other argument count is a wrong-count error raised before the read, and a failing read is a storage failure; returns the stored bytes unchanged, or nil for a missing key |
| Bank.TransferFunds | chaincode/bank.go:129-151 | success iff 3 arguments, the amount parses, and none of the four stub calls fails; a rejected argument list leaves the store untouched; only source and destination can change or appear; a wrong argument count is a wrong-count error and an unparseable amount a not-an-integer error naming index 2, both before any stub call; a failing stub call is a storage failure |
| Bank.Move | chaincode/bank.go:154-215 | the reads and writes succeed unless a stub call fails, and touch no key but source and destination; every failure is a storage failure |
| Bank.Init | chaincode/bank.go:25-85 | any function name but `createAccount` is an unknown-function error with the store unchanged; `createAccount` runs that operation |
| Bank.Query | chaincode/bank.go:89-123 | the store never changes; any name but `getBalance` is an unknown-function error |
| Bank.Invoke | chaincode/bank.go:127-220 | any name but `transferFunds` is an unknown-function error with the store unchanged; `transferFunds` runs that operation |
| BankProperties.ArgumentChecks | chaincode/bank.go:35-51 | createAccount's and transferFunds's argument checks accept exactly the argument lists whose numeric arguments are decimals that fit int64 |
| BankProperties.CreateAccountWrites | chaincode/bank.go:58-80 | a valid createAccount succeeds and the new store is the old one with name1 set to Itoa(Atoi(balance1)), then name2 set to Itoa(Atoi(balance2)), so the second write wins on equal names |
| BankProperties.CreateThenGetBalance | chaincode/bank.go:60-118 | after createAccount, getBalance of each created name returns canonical text that parses back to the balance given |
| BankProperties.CreateAccountPartialWrite | chaincode/bank.go:60-76 | a failing first write leaves the store unchanged; a failing second write leaves the first account written (no rollback) |
| BankProperties.MoveBalances | chaincode/bank.go:154-208 | between distinct accounts the source balance becomes Wrap64(old - amount) and the destination Wrap64(old + amount) |
| BankProperties.TransferMovesFunds | chaincode/bank.go:129-215 | a valid transfer between distinct accounts succeeds, debits the source and credits the destination by the amount, with 64-bit wrap-around |
| BankProperties.TransferConserves | chaincode/bank.go:190-208 | between distinct accounts the two balances' sum is conserved modulo 2^64, and conserved exactly whenever neither update overflows |
| BankProperties.TransferToSelf | chaincode/bank.go:156-208 | a transfer from an account to itself leaves it at Wrap64(old + amount), so a non-zero amount changes its balance |
| BankProperties.LenientDecode | chaincode/bank.go:163-187 | a missing account, or a short malformed stored value, reads as balance 0; a well-formed stored value reads as its value |
| BankProperties.TransferFromMissingAccount | chaincode/bank.go:154-199 | a transfer out of a nonexistent account succeeds and creates it holding Wrap64(-amount) |
| BankProperties.TransferPartialWrite | chaincode/bank.go:156-213 | a failure on either read or the first write leaves the store unchanged; a failure on the second write leaves only the source updated |
| BankProperties.CreateAccountPreservesWellFormed | chaincode/bank.go:58-78 | whether it succeeds or fails part-way, createAccount keeps every stored value a canonical int64 decimal |
| BankProperties.MovePreservesWellFormed | chaincode/bank.go:197-213 | from any well-formed ledger, the writes of transferFunds keep every stored value a canonical int64 decimal, even if a stub call fails part-way |
| BankProperties.TransferPreservesWellFormed | chaincode/bank.go:129-213 | transferFunds, with any arguments and any failing call, keeps every stored value a canonical int64 decimal |
| BankProperties.EntryPointsPreserveWellFormed | chaincode/bank.go:25-220 | through Init, Query and Invoke a well-formed ledger stays well formed |
| BankProperties.AliceAndBob | chaincode/bank.go:25-220 | Alice 100 and Bob 50 read back as `100` and `50`; after a transfer of 30 they read `70` and `80`; after a transfer of -10 they read `80` and `70` |

## Left out

- `main` and `shim.Start` (chaincode/bank.go:14-19): starting the chaincode and connecting it to the peer are outside the model.
- All `fmt.Printf` logging: it has no effect on the state or on the results.
- The Fabric `ChaincodeStub` itself. It is a map, and a `Fault` parameter stands in for its failures. The error text a failing stub returns is not modelled, only the fact that it is passed through.
- The ledger's handling of a transaction whose chaincode returned an error. The model shows the writes the chaincode made before failing, not whether the peer commits them.
- Error message texts. Each Go error is one case of `Bank.Error`:
  - wrong argument count, with the function name and expected count;
  - non-integer argument, with the function name and argument index;
  - unknown function name;
  - storage failure.
- The difference between a nil and an empty byte slice. Both are the empty string here, and neither can be told apart through `GetState`.
- Strings are sequences of characters, not bytes. A non-ASCII character is never a digit, so `Atoi` rejects it either way.
- Go's `int` is taken to be 64 bits wide, as on the amd64 peers Fabric runs on.
- Concurrency and isolation between transactions: these belong to the ledger.
- Strconv.AtoiSyntaxError: covers only malformed texts with fewer than 20 characters after the sign. A longer run of leading digits can overflow uint64 before the scan reaches the bad character. Go then reports a range error with a clamped value. `Strconv.ParseUint` models that case exactly, but this lemma does not state it.
- BankProperties.LenientDecode: states the decode-as-0 rule only for missing keys and short malformed values, for the same reason. An overlong malformed stored value decodes to MinInt64 or MaxInt64, as `Strconv.Atoi` defines.
