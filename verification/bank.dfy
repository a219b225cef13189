/**
 The account ledger of the chaincode `SimpleChaincode`: three operations over
 the ledger's key-value state, one behind each entry point the peer calls.

 The ledger state is a map from account name to the balance printed in decimal.
 `stub.GetState` and `stub.PutState` become map lookup and update; each operation
 is a function from the state before to its response and the state after.
 A stub call may fail: `Fault` says which one, and an operation stops at that
 call with the writes made before it still in place, as the Go code does.
 */
module Bank {
  import opened GoInt
  import opened Strconv

  /** The chaincode's view of the ledger: account name to stored bytes. */
  type Store = map<string, string>

  /** `stub.GetState(key)`: a key that was never written reads as nil, which
      the chaincode sees as the empty string. */
  function GetState(store: Store, key: string): string
  {
    if key in store then store[key] else ""
  }

  /** Which stub call, if any, returns an error. Calls are numbered from 0 in
      the order the operation makes them. */
  datatype Fault = NoFault | FailAt(call: nat) {
    predicate Fails(k: nat) {
      FailAt? && call == k
    }

    /** The fault hits one of the first `n` calls. */
    predicate HitsWithin(n: nat) {
      FailAt? && call < n
    }
  }

  const CreateAccountName: string := "createAccount"
  const GetBalanceName: string := "getBalance"
  const TransferFundsName: string := "transferFunds"

  /** The errors the entry points return: a wrong number of arguments, an
      argument that does not parse as an integer, a function name the entry
      point does not recognise, and an error passed through from the stub. */
  datatype Error =
    | WrongArgCount(fn: string, expected: nat)
    | NotAnInteger(fn: string, index: nat)
    | UnknownFunction(fn: string)
    | StorageFailure

  datatype Result<T> = Ok(value: T) | Err(error: Error)

  /** The `([]byte, error)` an entry point returns, with the ledger state it
      leaves behind. A nil payload is the empty string. */
  datatype Outcome = Outcome(response: Result<string>, store: Store)

  function Fail(e: Error, store: Store): Outcome {
    Outcome(Err(e), store)
  }

  /** The balance transferFunds reads for `key`: the stored text parsed with
      Atoi, its error discarded. */
  function Balance(store: Store, key: string): (b: int)
    ensures InInt64(b)
  {
    Atoi(GetState(store, key)).value
  }

  /** createAccount's argument checks: four arguments, both balances parse. */
  predicate CreateArgsValid(args: seq<string>) {
    |args| == 4 && Atoi(args[1]).err == NoError && Atoi(args[3]).err == NoError
  }

  /** transferFunds's argument checks: three arguments, the amount parses. */
  predicate TransferArgsValid(args: seq<string>) {
    |args| == 3 && Atoi(args[2]).err == NoError
  }

  /** createAccount [name1, balance1, name2, balance2]: every argument check
      comes before the first write; each balance is stored as Itoa of its
      parsed value, first account first. */
  function CreateAccount(store: Store, args: seq<string>, fault: Fault): (o: Outcome)
    ensures o.response.Ok? <==> CreateArgsValid(args) && !fault.HitsWithin(2)
    ensures o.response.Ok? ==> o.response.value == ""
    ensures |args| != 4 ==> o == Fail(WrongArgCount(CreateAccountName, 4), store)
    ensures |args| == 4 && Atoi(args[1]).err != NoError ==> o == Fail(NotAnInteger(CreateAccountName, 1), store)
    ensures |args| == 4 && Atoi(args[1]).err == NoError && Atoi(args[3]).err != NoError
            ==> o == Fail(NotAnInteger(CreateAccountName, 3), store)
    ensures CreateArgsValid(args) && fault.HitsWithin(2) ==> o.response == Err(StorageFailure)
    ensures !CreateArgsValid(args) ==> o.store == store
    ensures |args| == 4 ==> o.store - {args[0], args[2]} == store - {args[0], args[2]}
    ensures |args| == 4 ==> o.store.Keys <= store.Keys + {args[0], args[2]}
  {
    if |args| != 4 then Fail(WrongArgCount(CreateAccountName, 4), store)
    else
      var b1 := Atoi(args[1]);
      if b1.err != NoError then Fail(NotAnInteger(CreateAccountName, 1), store)
      else
        var b2 := Atoi(args[3]);
        if b2.err != NoError then Fail(NotAnInteger(CreateAccountName, 3), store)
        else WriteAccounts(store, args[0], b1.value, args[2], b2.value, fault)
  }

  /** The two writes of createAccount, once both balances have parsed. */
  function WriteAccounts(store: Store, name1: string, balance1: int, name2: string, balance2: int,
                         fault: Fault): (o: Outcome)
    ensures o.response.Ok? <==> !fault.HitsWithin(2)
    ensures !o.response.Ok? ==> o.response == Err(StorageFailure)
    ensures o.store - {name1, name2} == store - {name1, name2}
    ensures o.store.Keys <= store.Keys + {name1, name2}
  {
    if fault.Fails(0) then Fail(StorageFailure, store)
    else
      var s1 := store[name1 := Itoa(balance1)];
      if fault.Fails(1) then Fail(StorageFailure, s1)
      else Outcome(Ok(""), s1[name2 := Itoa(balance2)])
  }

  /** getBalance [name]: the stored bytes of `name`, as they are. */
  function GetBalance(store: Store, args: seq<string>, fault: Fault): (o: Outcome)
    ensures o.store == store
    ensures o.response.Ok? <==> |args| == 1 && !fault.HitsWithin(1)
    ensures |args| != 1 ==> o.response == Err(WrongArgCount(GetBalanceName, 1))
    ensures |args| == 1 && fault.HitsWithin(1) ==> o.response == Err(StorageFailure)
    ensures o.response.Ok? && args[0] in store ==> o.response.value == store[args[0]]
    ensures o.response.Ok? && args[0] !in store ==> o.response.value == ""
  {
    if |args| != 1 then Fail(WrongArgCount(GetBalanceName, 1), store)
    else if fault.Fails(0) then Fail(StorageFailure, store)
    else Outcome(Ok(GetState(store, args[0])), store)
  }

  /** transferFunds [src, dst, amount]: the argument checks come before any
      stub call. */
  function TransferFunds(store: Store, args: seq<string>, fault: Fault): (o: Outcome)
    ensures o.response.Ok? <==> TransferArgsValid(args) && !fault.HitsWithin(4)
    ensures o.response.Ok? ==> o.response.value == ""
    ensures |args| != 3 ==> o == Fail(WrongArgCount(TransferFundsName, 3), store)
    ensures |args| == 3 && Atoi(args[2]).err != NoError ==> o == Fail(NotAnInteger(TransferFundsName, 2), store)
    ensures TransferArgsValid(args) && fault.HitsWithin(4) ==> o.response == Err(StorageFailure)
    ensures !TransferArgsValid(args) ==> o.store == store
    ensures |args| == 3 ==> o.store - {args[0], args[1]} == store - {args[0], args[1]}
    ensures |args| == 3 ==> o.store.Keys <= store.Keys + {args[0], args[1]}
  {
    if |args| != 3 then Fail(WrongArgCount(TransferFundsName, 3), store)
    else
      var amount := Atoi(args[2]);
      if amount.err != NoError then Fail(NotAnInteger(TransferFundsName, 2), store)
      else Move(store, args[0], args[1], amount.value, fault)
  }

  /** The reads and writes of transferFunds: both balances are read before
      either is written; a balance that does not parse counts as 0; the amount
      has no sign or overdraft check; `-=` and `+=` wrap at 64 bits. */
  function Move(store: Store, src: string, dst: string, amount: int, fault: Fault): (o: Outcome)
    requires InInt64(amount)
    ensures o.response.Ok? <==> !fault.HitsWithin(4)
    ensures !o.response.Ok? ==> o.response == Err(StorageFailure)
    ensures o.store - {src, dst} == store - {src, dst}
    ensures o.store.Keys <= store.Keys + {src, dst}
  {
    if fault.Fails(0) then Fail(StorageFailure, store)
    else
      var srcBalance := Balance(store, src);
      if fault.Fails(1) then Fail(StorageFailure, store)
      else
        var dstBalance := Balance(store, dst);
        var newSrc := Wrap64(srcBalance - amount);
        var newDst := Wrap64(dstBalance + amount);
        if fault.Fails(2) then Fail(StorageFailure, store)
        else
          var s1 := store[src := Itoa(newSrc)];
          if fault.Fails(3) then Fail(StorageFailure, s1)
          else Outcome(Ok(""), s1[dst := Itoa(newDst)])
  }

  /** The deploy entry point: only createAccount is recognised. */
  function Init(store: Store, fn: string, args: seq<string>, fault: Fault): (o: Outcome)
    ensures fn != CreateAccountName ==> o.response == Err(UnknownFunction(fn)) && o.store == store
    ensures fn == CreateAccountName ==> o == CreateAccount(store, args, fault)
  {
    if fn == CreateAccountName then CreateAccount(store, args, fault)
    else Fail(UnknownFunction(fn), store)
  }

  /** The query entry point: only getBalance is recognised. */
  function Query(store: Store, fn: string, args: seq<string>, fault: Fault): (o: Outcome)
    ensures o.store == store
    ensures fn != GetBalanceName ==> o.response == Err(UnknownFunction(fn))
    ensures fn == GetBalanceName ==> o == GetBalance(store, args, fault)
  {
    if fn == GetBalanceName then GetBalance(store, args, fault)
    else Fail(UnknownFunction(fn), store)
  }

  /** The invoke entry point: only transferFunds is recognised. */
  function Invoke(store: Store, fn: string, args: seq<string>, fault: Fault): (o: Outcome)
    ensures fn != TransferFundsName ==> o.response == Err(UnknownFunction(fn)) && o.store == store
    ensures fn == TransferFundsName ==> o == TransferFunds(store, args, fault)
  {
    if fn == TransferFundsName then TransferFunds(store, args, fault)
    else Fail(UnknownFunction(fn), store)
  }
}
