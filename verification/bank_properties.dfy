/**
 What the ledger operations guarantee, stated over whole stores: the writes
 createAccount makes and the round trip through getBalance, what transferFunds
 does to the two balances it touches (and why a self-transfer is not
 conserving), the lenient decoding of stored balances, the partial writes a
 storage failure leaves behind, and the shape of every value the chaincode
 ever writes.
 */
module BankProperties {
  import opened GoInt
  import opened Strconv
  import opened Bank

  /** Every stored value is what Itoa prints for a 64-bit integer. */
  predicate WellFormed(store: Store) {
    forall k :: k in store ==> IsCanonical(store[k]) && IsInt(store[k])
  }

  /** The argument checks accept exactly the signed decimals that fit 64 bits. */
  lemma ArgumentChecks(args: seq<string>)
    ensures CreateArgsValid(args) <==> |args| == 4 && IsInt(args[1]) && IsInt(args[3])
    ensures TransferArgsValid(args) <==> |args| == 3 && IsInt(args[2])
  {
    if |args| == 4 {
      AtoiAccepts(args[1]);
      AtoiAccepts(args[3]);
    }
    if |args| == 3 {
      AtoiAccepts(args[2]);
    }
  }

  // ---------------------------------------------------------------------------
  // createAccount

  /** A valid createAccount writes both balances in canonical form, the second
      write winning when the names coincide, and reports success. */
  lemma CreateAccountWrites(store: Store, args: seq<string>)
    requires CreateArgsValid(args)
    ensures var o := CreateAccount(store, args, NoFault);
      && o.response == Ok("")
      && o.store == store[args[0] := Itoa(Atoi(args[1]).value)][args[2] := Itoa(Atoi(args[3]).value)]
  {
  }

  /** Reading back an account just created yields the canonical decimal of the
      balance given, which parses to that balance. */
  lemma CreateThenGetBalance(store: Store, args: seq<string>)
    requires CreateArgsValid(args)
    ensures var after := CreateAccount(store, args, NoFault).store;
      var got := GetBalance(after, [args[2]], NoFault).response;
      && got.Ok?
      && IsCanonical(got.value)
      && Atoi(got.value) == Atoi(args[3])
      && (args[0] != args[2] ==>
            var got1 := GetBalance(after, [args[0]], NoFault).response;
            got1.Ok? && IsCanonical(got1.value) && Atoi(got1.value) == Atoi(args[1]))
  {
    CreateAccountWrites(store, args);
    ItoaAtoi(args[1]);
    ItoaAtoi(args[3]);
  }

  /** A storage failure on the first write leaves the ledger as it was; one on
      the second leaves the first account written: there is no rollback. */
  lemma CreateAccountPartialWrite(store: Store, args: seq<string>)
    requires CreateArgsValid(args)
    ensures CreateAccount(store, args, FailAt(0)) == Outcome(Err(StorageFailure), store)
    ensures CreateAccount(store, args, FailAt(1))
         == Outcome(Err(StorageFailure), store[args[0] := Itoa(Atoi(args[1]).value)])
  {
  }

  // ---------------------------------------------------------------------------
  // transferFunds

  /** The balances Move leaves behind, for two different accounts. */
  lemma MoveBalances(store: Store, src: string, dst: string, amount: int)
    requires src != dst && InInt64(amount)
    ensures var o := Move(store, src, dst, amount, NoFault);
      && o.response == Ok("")
      && Balance(o.store, src) == Wrap64(Balance(store, src) - amount)
      && Balance(o.store, dst) == Wrap64(Balance(store, dst) + amount)
  {
    var newSrc := Wrap64(Balance(store, src) - amount);
    var newDst := Wrap64(Balance(store, dst) + amount);
    var o := Move(store, src, dst, amount, NoFault);
    assert GetState(o.store, src) == Itoa(newSrc);
    assert GetState(o.store, dst) == Itoa(newDst);
    AtoiItoa(newSrc);
    AtoiItoa(newDst);
  }

  /** Between two different accounts, the source is debited and the destination
      credited by the amount, each with 64-bit wrap-around. */
  lemma TransferMovesFunds(store: Store, args: seq<string>)
    requires TransferArgsValid(args) && args[0] != args[1]
    ensures var o := TransferFunds(store, args, NoFault);
      var amount := Atoi(args[2]).value;
      && o.response == Ok("")
      && Balance(o.store, args[0]) == Wrap64(Balance(store, args[0]) - amount)
      && Balance(o.store, args[1]) == Wrap64(Balance(store, args[1]) + amount)
  {
    MoveBalances(store, args[0], args[1], Atoi(args[2]).value);
  }

  /** The sum of the two balances is conserved modulo 2^64, and conserved
      exactly whenever neither update overflows. */
  lemma TransferConserves(store: Store, args: seq<string>)
    requires TransferArgsValid(args) && args[0] != args[1]
    ensures var o := TransferFunds(store, args, NoFault);
      var amount := Atoi(args[2]).value;
      var before := Balance(store, args[0]) + Balance(store, args[1]);
      var after := Balance(o.store, args[0]) + Balance(o.store, args[1]);
      && (after - before) % TwoTo64 == 0
      && ((InInt64(Balance(store, args[0]) - amount) && InInt64(Balance(store, args[1]) + amount))
          ==> after == before)
  {
    var amount := Atoi(args[2]).value;
    var a := Balance(store, args[0]);
    var b := Balance(store, args[1]);
    TransferMovesFunds(store, args);
    SumOfWraps(a - amount, b + amount);
  }

  lemma SumOfWraps(x: int, y: int)
    requires InSumRange(x) && InSumRange(y)
    ensures (Wrap64(x) + Wrap64(y) - (x + y)) % TwoTo64 == 0
  {
    var i := (Wrap64(x) - x) / TwoTo64;
    var j := (Wrap64(y) - y) / TwoTo64;
    assert Wrap64(x) + Wrap64(y) - (x + y) == (i + j) * TwoTo64;
  }

  /** A transfer from an account to itself credits it with the amount: both
      balances are read before either write, and the destination write lands
      last, so the debit is lost. */
  lemma TransferToSelf(store: Store, args: seq<string>)
    requires TransferArgsValid(args) && args[0] == args[1]
    ensures var o := TransferFunds(store, args, NoFault);
      var amount := Atoi(args[2]).value;
      && o.response == Ok("")
      && Balance(o.store, args[0]) == Wrap64(Balance(store, args[0]) + amount)
      && (amount != 0 && InInt64(Balance(store, args[0]) + amount) ==>
            Balance(o.store, args[0]) != Balance(store, args[0]))
  {
    var amount := Atoi(args[2]).value;
    var newDst := Wrap64(Balance(store, args[0]) + amount);
    var o := Move(store, args[0], args[0], amount, NoFault);
    assert GetState(o.store, args[0]) == Itoa(newDst);
    AtoiItoa(newDst);
  }

  /** A missing account reads as balance 0; so does a stored value that is not a
      signed decimal (unless an overlong run of digits makes Atoi clamp it). */
  lemma LenientDecode(store: Store, key: string)
    ensures key !in store ==> Balance(store, key) == 0
    ensures key in store && !IsDecimal(store[key]) && |Unsigned(store[key])| < 20 ==> Balance(store, key) == 0
    ensures key in store && IsInt(store[key]) ==> Balance(store, key) == DecimalValue(store[key])
  {
    AtoiSyntaxError("");
    if key in store {
      AtoiAccepts(store[key]);
      if !IsDecimal(store[key]) && |Unsigned(store[key])| < 20 {
        AtoiSyntaxError(store[key]);
      }
    }
  }

  /** Transferring out of an account that does not exist succeeds and creates
      it holding the negated amount: nothing checks that the source exists. */
  lemma TransferFromMissingAccount(store: Store, args: seq<string>)
    requires TransferArgsValid(args) && args[0] != args[1] && args[0] !in store
    ensures var o := TransferFunds(store, args, NoFault);
      && o.response == Ok("")
      && args[0] in o.store
      && Balance(o.store, args[0]) == Wrap64(-Atoi(args[2]).value)
  {
    LenientDecode(store, args[0]);
    TransferMovesFunds(store, args);
  }

  /** A storage failure on either read or on the first write leaves the ledger
      as it was; one on the second write leaves the source already debited. */
  lemma TransferPartialWrite(store: Store, args: seq<string>, k: nat)
    requires TransferArgsValid(args)
    ensures k < 3 ==> TransferFunds(store, args, FailAt(k)) == Outcome(Err(StorageFailure), store)
    ensures k == 3 ==>
      TransferFunds(store, args, FailAt(k))
      == Outcome(Err(StorageFailure),
                 store[args[0] := Itoa(Wrap64(Balance(store, args[0]) - Atoi(args[2]).value))])
  {
  }

  // ---------------------------------------------------------------------------
  // The ledger stays well formed

  lemma WrittenIsWellFormed(store: Store, key: string, n: int)
    requires WellFormed(store) && InInt64(n)
    ensures WellFormed(store[key := Itoa(n)])
  {
    ItoaCanonical(n);
  }

  /** createAccount, whether it succeeds or stops at a failing stub call, writes
      only canonical 64-bit decimals. */
  lemma CreateAccountPreservesWellFormed(store: Store, args: seq<string>, fault: Fault)
    requires WellFormed(store)
    ensures WellFormed(CreateAccount(store, args, fault).store)
  {
    if CreateArgsValid(args) {
      var s1 := store[args[0] := Itoa(Atoi(args[1]).value)];
      WrittenIsWellFormed(store, args[0], Atoi(args[1]).value);
      WrittenIsWellFormed(s1, args[2], Atoi(args[3]).value);
    }
  }

  /** The same for transferFunds, from any well-formed ledger. */
  lemma TransferPreservesWellFormed(store: Store, args: seq<string>, fault: Fault)
    requires WellFormed(store)
    ensures WellFormed(TransferFunds(store, args, fault).store)
  {
    if TransferArgsValid(args) {
      MovePreservesWellFormed(store, args[0], args[1], Atoi(args[2]).value, fault);
    }
  }

  lemma MovePreservesWellFormed(store: Store, src: string, dst: string, amount: int, fault: Fault)
    requires WellFormed(store) && InInt64(amount)
    ensures WellFormed(Move(store, src, dst, amount, fault).store)
  {
    var newSrc := Wrap64(Balance(store, src) - amount);
    var newDst := Wrap64(Balance(store, dst) + amount);
    var s1 := store[src := Itoa(newSrc)];
    WrittenIsWellFormed(store, src, newSrc);
    WrittenIsWellFormed(s1, dst, newDst);
  }

  /** Through every entry point, a well-formed ledger stays well formed. */
  lemma EntryPointsPreserveWellFormed(store: Store, fn: string, args: seq<string>, fault: Fault)
    requires WellFormed(store)
    ensures WellFormed(Init(store, fn, args, fault).store)
    ensures WellFormed(Query(store, fn, args, fault).store)
    ensures WellFormed(Invoke(store, fn, args, fault).store)
  {
    CreateAccountPreservesWellFormed(store, args, fault);
    TransferPreservesWellFormed(store, args, fault);
  }

  // ---------------------------------------------------------------------------
  // A concrete session

  lemma OpenAliceAndBob(store: Store)
    ensures Init(store, "createAccount", ["Alice", "100", "Bob", "50"], NoFault).store
         == store["Alice" := "100"]["Bob" := "50"]
  {
    AtoiItoa(100);
    assert Itoa(100) == "100";
    AtoiItoa(50);
    assert Itoa(50) == "50";
    CreateAccountWrites(store, ["Alice", "100", "Bob", "50"]);
  }

  /** Alice sends Bob `amount` when they hold `a` and `b`. */
  lemma AliceSendsBob(store: Store, a: int, b: int, amount: int, text: string)
    requires InInt64(a - amount) && InInt64(b + amount)
    requires Atoi(GetState(store, "Alice")) == Conv(a, NoError)
    requires Atoi(GetState(store, "Bob")) == Conv(b, NoError)
    requires Atoi(text) == Conv(amount, NoError)
    ensures Invoke(store, "transferFunds", ["Alice", "Bob", text], NoFault).store
         == store["Alice" := Itoa(a - amount)]["Bob" := Itoa(b + amount)]
  {
    var args := ["Alice", "Bob", text];
    assert TransferArgsValid(args);
    assert Balance(store, "Alice") == a && Balance(store, "Bob") == b;
    assert TransferFunds(store, args, NoFault) == Move(store, "Alice", "Bob", amount, NoFault);
    assert Wrap64(a - amount) == a - amount && Wrap64(b + amount) == b + amount;
  }

  lemma FirstTransfer(s1: Store)
    requires GetState(s1, "Alice") == "100" && GetState(s1, "Bob") == "50"
    ensures Invoke(s1, "transferFunds", ["Alice", "Bob", "30"], NoFault).store
         == s1["Alice" := "70"]["Bob" := "80"]
  {
    AtoiItoa(100);
    assert Itoa(100) == "100";
    AtoiItoa(50);
    assert Itoa(50) == "50";
    AtoiItoa(30);
    assert Itoa(30) == "30";
    AliceSendsBob(s1, 100, 50, 30, "30");
    assert Itoa(70) == "70" && Itoa(80) == "80";
  }

  lemma SecondTransfer(s2: Store)
    requires GetState(s2, "Alice") == "70" && GetState(s2, "Bob") == "80"
    ensures Invoke(s2, "transferFunds", ["Alice", "Bob", "-10"], NoFault).store
         == s2["Alice" := "80"]["Bob" := "70"]
  {
    AtoiItoa(70);
    assert Itoa(70) == "70";
    AtoiItoa(80);
    assert Itoa(80) == "80";
    AtoiItoa(-10);
    assert Itoa(-10) == "-10";
    AliceSendsBob(s2, 70, 80, -10, "-10");
  }

  /** Alice and Bob open with 100 and 50; Alice sends Bob 30; then Alice sends
      Bob -10, which the chaincode accepts and which moves 10 back. */
  lemma AliceAndBob(store: Store)
    ensures var s1 := Init(store, "createAccount", ["Alice", "100", "Bob", "50"], NoFault).store;
      var s2 := Invoke(s1, "transferFunds", ["Alice", "Bob", "30"], NoFault).store;
      var s3 := Invoke(s2, "transferFunds", ["Alice", "Bob", "-10"], NoFault).store;
      && Query(s1, "getBalance", ["Alice"], NoFault).response == Ok("100")
      && Query(s1, "getBalance", ["Bob"], NoFault).response == Ok("50")
      && Query(s2, "getBalance", ["Alice"], NoFault).response == Ok("70")
      && Query(s2, "getBalance", ["Bob"], NoFault).response == Ok("80")
      && Query(s3, "getBalance", ["Alice"], NoFault).response == Ok("80")
      && Query(s3, "getBalance", ["Bob"], NoFault).response == Ok("70")
  {
    OpenAliceAndBob(store);
    var s1 := store["Alice" := "100"]["Bob" := "50"];
    FirstTransfer(s1);
    var s2 := s1["Alice" := "70"]["Bob" := "80"];
    SecondTransfer(s2);
  }

}
