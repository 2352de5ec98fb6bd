/**
 * What a redeem script does: the opcodes that swap_verifier.py writes, run as Bitcoin Script runs them (BIP 65 for
 * the locktime, BIP 141 for the end of a witness script). Any other opcode fails here.
 */
module Interpreter {
  import opened Ledger
  import opened Results
  import opened Script

  /** What a script cannot see for itself: hash, signature check and the locktime of the transaction that spends. */
  datatype Spending = Spending(
    sha256: Bytes -> Bytes, checkSig: (Bytes, Bytes) -> bool, locktime: int, isFinal: bool)

  /** The stack, its top at the end, and for every open IF whether its current branch is taken. */
  datatype Machine = Machine(stack: seq<Bytes>, open: seq<bool>)

  predicate Live(m: Machine) {
    forall i :: 0 <= i < |m.open| ==> m.open[i]
  }

  /** Everything is true but zero, in any length and of either sign. */
  predicate Truthy(item: Bytes) {
    exists i :: 0 <= i < |item| && item[i] != 0 && !(i == |item| - 1 && item[i] == 0x80)
  }

  /** Locktimes below this are heights, others are times; the two are never compared. */
  const TIME_THRESHOLD: int := 500_000_000

  predicate LocktimeReached(e: Spending, n: int) {
    0 <= n <= e.locktime && (n < TIME_THRESHOLD <==> e.locktime < TIME_THRESHOLD) && !e.isFinal
  }

  /** CHECKLOCKTIMEVERIFY reads numbers of at most five bytes. */
  predicate LocktimeOk(e: Spending, item: Bytes) {
    |item| <= 5 && LocktimeReached(e, ReadScriptNum(item))
  }

  function Top(m: Machine): Bytes
    requires |m.stack| > 0
  {
    m.stack[|m.stack| - 1]
  }

  function Pop(m: Machine, n: nat): seq<Bytes>
    requires n <= |m.stack|
  {
    m.stack[..|m.stack| - n]
  }

  function Push(m: Machine, item: Bytes): Machine {
    if Live(m) then m.(stack := m.stack + [item]) else m
  }

  /** An opcode of a branch that is taken. */
  function Apply(e: Spending, op: Byte, m: Machine): Option<Machine> {
    if op == 0xA8 then
      if |m.stack| < 1 then None else Some(m.(stack := Pop(m, 1) + [e.sha256(Top(m))]))
    else if op == 0x88 then
      if |m.stack| < 2 || Top(m) != m.stack[|m.stack| - 2] then None else Some(m.(stack := Pop(m, 2)))
    else if op == 0xAC then
      if |m.stack| < 2 then None
      else Some(m.(stack := Pop(m, 2) + [if e.checkSig(Top(m), m.stack[|m.stack| - 2]) then [1] else []]))
    else if op == 0xB1 then
      if |m.stack| < 1 || !LocktimeOk(e, Top(m)) then None else Some(m)
    else if op == 0x75 then
      if |m.stack| < 1 then None else Some(m.(stack := Pop(m, 1)))
    else None
  }

  /** An opcode that pushes nothing of the script. */
  function Step(e: Spending, op: Byte, m: Machine): Option<Machine> {
    var n := |m.open|;
    if op == 0x63 then
      if !Live(m) then Some(m.(open := m.open + [false]))
      else if |m.stack| < 1 then None
      else Some(Machine(Pop(m, 1), m.open + [Truthy(Top(m))]))
    else if op == 0x67 then
      if n == 0 then None else Some(m.(open := m.open[n - 1 := !m.open[n - 1]]))
    else if op == 0x68 then
      if n == 0 then None else Some(m.(open := m.open[..n - 1]))
    else if op < 0x4F then None
    else if Live(m) then Apply(e, op, m)
    else Some(m)
  }

  /** Run a script to its end; None is failure. */
  function Exec(e: Spending, script: Bytes, m: Machine): Option<Machine>
    decreases |script|
  {
    if |script| == 0 then Some(m)
    else
      var head := PushHead(script);
      if head.Some? then
        var from, to := head.value.0, head.value.0 + head.value.1;
        if to > |script| then None else Exec(e, script[to..], Push(m, script[from..to]))
      else
        var next := Step(e, script[0], m);
        if next.None? then None else Exec(e, script[1..], next.value)
  }

  /** The items of a witness unlock a script when the run ends outside any IF with one item left, and that is true. */
  predicate Unlocks(e: Spending, script: Bytes, items: seq<Bytes>) {
    var end := Exec(e, script, Machine(items, []));
    end.Some? && end.value.open == [] && |end.value.stack| == 1 && Truthy(end.value.stack[0])
  }

  // ----- running a script piece by piece ---------------------------------------------------------- //

  lemma {:induction false} RunPush(e: Spending, data: Bytes, rest: Bytes, m: Machine)
    requires |data| <= 0xFF
    ensures Exec(e, PushData(data).value + rest, m) == Exec(e, rest, Push(m, data))
  {
    var push := PushData(data).value;
    var script := push + rest;
    assert PushHead(script) == Some((|push| - |data|, |data|));
    assert script[|push| - |data|..|push|] == data && script[|push|..] == rest;
  }

  lemma {:induction false} RunStep(e: Spending, op: Byte, rest: Bytes, m: Machine)
    requires op >= 0x4F
    ensures Exec(e, [op] + rest, m)
         == if Step(e, op, m).None? then None else Exec(e, rest, Step(e, op, m).value)
  {
    assert ([op] + rest)[1..] == rest;
  }

  lemma {:induction false} RunTwo(e: Spending, op: Byte, op': Byte, rest: Bytes, m: Machine)
    requires op >= 0x4F && op' >= 0x4F
    ensures Exec(e, [op, op'] + rest, m)
         == if Step(e, op, m).None? then None else Exec(e, [op'] + rest, Step(e, op, m).value)
  {
    assert [op, op'] + rest == [op] + ([op'] + rest);
    RunStep(e, op, [op'] + rest, m);
  }

  // ----- the redeem script ------------------------------------------------------------------------- //

  /** What follows the ELSE of a redeem script. */
  function RefundPart(n: Bytes, refund: Bytes): Bytes
    requires |n| <= 0xFF && |refund| <= 0xFF
  {
    PushData(n).value + (OP_CLTV_DROP + (PushData(refund).value + OP_CHECKSIG_ENDIF))
  }

  /** What follows the hash of a redeem script. */
  function ClaimPart(recipient: Bytes, rest: Bytes): Bytes
    requires |recipient| <= 0xFF
  {
    OP_EQUALVERIFY + (PushData(recipient).value + (OP_CHECKSIG_ELSE + rest))
  }

  /** CHECKSIG and ENDIF of a branch taken: the signature below the key decides. */
  lemma {:induction false} RunEnd(e: Spending, st: seq<Bytes>, key: Bytes)
    requires |key| <= 0xFF
    ensures Exec(e, PushData(key).value + OP_CHECKSIG_ENDIF, Machine(st, [true]))
         == if |st| < 1 then None else Some(Machine(Signed(e, st, key), []))
  {
    var m := Machine(st + [key], [true]);
    RunPush(e, key, OP_CHECKSIG_ENDIF, Machine(st, [true]));
    assert OP_CHECKSIG_ENDIF + [] == OP_CHECKSIG_ENDIF && [0x68] + [] == [0x68 as Byte];
    RunTwo(e, 0xAC, 0x68, [], m);
    if |st| >= 1 {
      CheckSigTaken(e, st, key);
      RunStep(e, 0x68, [], Machine(Signed(e, st, key), [true]));
    }
  }

  /** The stack after the signature on top of `st` has been checked under `key`. */
  function Signed(e: Spending, st: seq<Bytes>, key: Bytes): seq<Bytes>
    requires |st| > 0
  {
    st[..|st| - 1] + [if e.checkSig(key, st[|st| - 1]) then [1] else []]
  }

  lemma CheckSigTaken(e: Spending, st: seq<Bytes>, key: Bytes)
    requires |st| > 0
    ensures Step(e, 0xAC, Machine(st + [key], [true])) == Some(Machine(Signed(e, st, key), [true]))
  {
    assert (st + [key])[..|st| - 1] == st[..|st| - 1];
  }

  /** The branch after ELSE is passed over when the first was taken. */
  lemma {:induction false} PassRefund(e: Spending, n: Bytes, refund: Bytes, st: seq<Bytes>)
    requires |n| <= 0xFF && |refund| <= 0xFF
    ensures Exec(e, RefundPart(n, refund), Machine(st, [false])) == Some(Machine(st, []))
  {
    var m := Machine(st, [false]);
    var last := PushData(refund).value + OP_CHECKSIG_ENDIF;
    assert !m.open[0] && !Live(m);
    RunPush(e, n, OP_CLTV_DROP + last, m);
    RunTwo(e, 0xB1, 0x75, last, m);
    RunStep(e, 0x75, last, m);
    RunPush(e, refund, OP_CHECKSIG_ENDIF, m);
    assert OP_CHECKSIG_ENDIF + [] == OP_CHECKSIG_ENDIF && [0x68] + [] == [0x68 as Byte];
    RunTwo(e, 0xAC, 0x68, [], m);
    RunStep(e, 0x68, [], m);
  }

  /** The branch after ELSE, taken. */
  lemma {:induction false} TakeRefund(e: Spending, n: Bytes, refund: Bytes, st: seq<Bytes>)
    requires |n| <= 0xFF && |refund| <= 0xFF
    ensures Exec(e, RefundPart(n, refund), Machine(st, [true]))
         == if !LocktimeOk(e, n) || |st| < 1 then None else Some(Machine(Signed(e, st, refund), []))
  {
    TakeLock(e, n, PushData(refund).value + OP_CHECKSIG_ENDIF, st);
    if LocktimeOk(e, n) { RunEnd(e, st, refund); }
  }

  lemma {:induction false} TakeLock(e: Spending, n: Bytes, rest: Bytes, st: seq<Bytes>)
    requires |n| <= 0xFF
    ensures Exec(e, PushData(n).value + (OP_CLTV_DROP + rest), Machine(st, [true]))
         == if LocktimeOk(e, n) then Exec(e, rest, Machine(st, [true])) else None
  {
    var m := Machine(st + [n], [true]);
    RunPush(e, n, OP_CLTV_DROP + rest, Machine(st, [true]));
    RunTwo(e, 0xB1, 0x75, rest, m);
    if LocktimeOk(e, n) {
      RunStep(e, 0x75, rest, m);
      assert Pop(m, 1) == st;
    }
  }

  lemma ElseTurns(e: Spending, st: seq<Bytes>, taken: bool)
    ensures Step(e, 0x67, Machine(st, [taken])) == Some(Machine(st, [!taken]))
  {
    assert [taken][0 := !taken] == [!taken];
  }

  lemma {:induction false} PassHash(e: Spending, h: Bytes, rest: Bytes, m: Machine)
    requires |h| <= 0xFF && !Live(m)
    ensures Exec(e, PushData(h).value + (OP_EQUALVERIFY + rest), m) == Exec(e, rest, m)
  {
    RunPush(e, h, OP_EQUALVERIFY + rest, m);
    RunStep(e, 0x88, rest, m);
  }

  lemma {:induction false} PassKey(e: Spending, key: Bytes, rest: Bytes, st: seq<Bytes>)
    requires |key| <= 0xFF
    ensures Exec(e, PushData(key).value + (OP_CHECKSIG_ELSE + rest), Machine(st, [false]))
         == Exec(e, rest, Machine(st, [true]))
  {
    var m := Machine(st, [false]);
    assert !m.open[0] && !Live(m);
    RunPush(e, key, OP_CHECKSIG_ELSE + rest, m);
    RunTwo(e, 0xAC, 0x67, rest, m);
    RunStep(e, 0x67, rest, m);
    ElseTurns(e, st, false);
  }

  /** The first branch is passed over, and ELSE takes the second. */
  lemma {:induction false} PassClaim(e: Spending, h: Bytes, recipient: Bytes, rest: Bytes, st: seq<Bytes>)
    requires |h| <= 0xFF && |recipient| <= 0xFF
    ensures Exec(e, PushData(h).value + ClaimPart(recipient, rest), Machine(st, [false]))
         == Exec(e, rest, Machine(st, [true]))
  {
    var m := Machine(st, [false]);
    assert !m.open[0] && !Live(m);
    PassHash(e, h, PushData(recipient).value + (OP_CHECKSIG_ELSE + rest), m);
    PassKey(e, recipient, rest, st);
  }

  lemma {:induction false} TakeHash(e: Spending, h: Bytes, rest: Bytes, st: seq<Bytes>, x: Bytes)
    requires |h| <= 0xFF
    ensures Exec(e, PushData(h).value + (OP_EQUALVERIFY + rest), Machine(st + [x], [true]))
         == if x == h then Exec(e, rest, Machine(st, [true])) else None
  {
    RunPush(e, h, OP_EQUALVERIFY + rest, Machine(st + [x], [true]));
    RunStep(e, 0x88, rest, Machine(st + [x] + [h], [true]));
    EqualTaken(e, st, x, h);
  }

  lemma {:induction false} TakeKey(e: Spending, key: Bytes, rest: Bytes, st: seq<Bytes>)
    requires |key| <= 0xFF
    ensures Exec(e, PushData(key).value + (OP_CHECKSIG_ELSE + rest), Machine(st, [true]))
         == if |st| < 1 then None else Exec(e, rest, Machine(Signed(e, st, key), [false]))
  {
    RunPush(e, key, OP_CHECKSIG_ELSE + rest, Machine(st, [true]));
    RunTwo(e, 0xAC, 0x67, rest, Machine(st + [key], [true]));
    if |st| >= 1 {
      CheckSigTaken(e, st, key);
      RunStep(e, 0x67, rest, Machine(Signed(e, st, key), [true]));
      ElseTurns(e, Signed(e, st, key), true);
    }
  }

  /** The first branch, taken after the hash `x` has been put on the stack: hash, then signature. */
  lemma {:induction false} TakeClaim(e: Spending, h: Bytes, recipient: Bytes, rest: Bytes, st: seq<Bytes>, x: Bytes)
    requires |h| <= 0xFF && |recipient| <= 0xFF
    ensures Exec(e, PushData(h).value + ClaimPart(recipient, rest), Machine(st + [x], [true]))
         == if x != h || |st| < 1 then None else Exec(e, rest, Machine(Signed(e, st, recipient), [false]))
  {
    TakeHash(e, h, PushData(recipient).value + (OP_CHECKSIG_ELSE + rest), st, x);
    if x == h { TakeKey(e, recipient, rest, st); }
  }

  lemma EqualTaken(e: Spending, st: seq<Bytes>, x: Bytes, h: Bytes)
    ensures Step(e, 0x88, Machine(st + [x] + [h], [true])) == if x == h then Some(Machine(st, [true])) else None
  {
    var m := Machine(st + [x] + [h], [true]);
    assert Pop(m, 2) == st;
  }

  /** The head of the script: the topmost item chooses the branch, the next one is hashed for the first. */
  lemma {:induction false} RunHead(e: Spending, rest: Bytes, st: seq<Bytes>, c: Bytes)
    ensures Exec(e, OP_IF_SHA256 + rest, Machine(st + [c], []))
         == if !Truthy(c) then Exec(e, rest, Machine(st, [false]))
            else if |st| < 1 then None
            else Exec(e, rest, Machine(st[..|st| - 1] + [e.sha256(st[|st| - 1])], [true]))
  {
    var m := Machine(st + [c], []);
    RunTwo(e, 0x63, 0xA8, rest, m);
    assert Pop(m, 1) == st && [] + [Truthy(c)] == [Truthy(c)];
    var m' := Machine(st, [Truthy(c)]);
    if !Truthy(c) { assert !m'.open[0]; }
    RunStep(e, 0xA8, rest, m');
  }

  /** Signature, preimage and a true item: the recipient's way. */
  predicate Claims(e: Spending, items: seq<Bytes>, h: Bytes, recipient: Bytes) {
    |items| == 3 && Truthy(items[2]) && e.sha256(items[1]) == h && e.checkSig(recipient, items[0])
  }

  /** Signature and a false item, once the locktime is reached: the funder's way back. */
  predicate Refunds(e: Spending, items: seq<Bytes>, refund: Bytes, locktime: int) {
    && |items| == 2 && !Truthy(items[1]) && e.checkSig(refund, items[0])
    && |ScriptNum(locktime)| <= 5 && LocktimeReached(e, locktime)
  }

  lemma {:induction false} RunRedeem(e: Spending, h: Bytes, recipient: Bytes, refund: Bytes, locktime: int,
                                     st: seq<Bytes>, c: Bytes)
    requires RedeemArgsOk(h, recipient, refund, locktime)
    ensures Exec(e, RedeemScript(h, recipient, refund, locktime).value, Machine(st + [c], []))
         == if Truthy(c) then
              if |st| < 2 || e.sha256(st[|st| - 1]) != h then None
              else Some(Machine(Signed(e, st[..|st| - 1], recipient), []))
            else if !LocktimeOk(e, ScriptNum(locktime)) || |st| < 1 then None
            else Some(Machine(Signed(e, st, refund), []))
  {
    var rest := RefundPart(ScriptNum(locktime), refund);
    RunHead(e, PushData(h).value + ClaimPart(recipient, rest), st, c);
    if !Truthy(c) {
      PassClaim(e, h, recipient, rest, st);
      TakeRefund(e, ScriptNum(locktime), refund, st);
    } else if |st| >= 1 {
      TakeClaim(e, h, recipient, rest, st[..|st| - 1], e.sha256(st[|st| - 1]));
      if |st| >= 2 { PassRefund(e, ScriptNum(locktime), refund, Signed(e, st[..|st| - 1], recipient)); }
    }
  }

  lemma {:induction false} EmptyWitness(e: Spending, h: Bytes, recipient: Bytes, refund: Bytes, locktime: int)
    requires RedeemArgsOk(h, recipient, refund, locktime)
    ensures Exec(e, RedeemScript(h, recipient, refund, locktime).value, Machine([], [])).None?
  {
    var rest := PushData(h).value + ClaimPart(recipient, RefundPart(ScriptNum(locktime), refund));
    RunTwo(e, 0x63, 0xA8, rest, Machine([], []));
  }

  /**
   * Who may spend a swap's output, exactly: the recipient with a preimage of the hashlock, at any time, or the funder
   * once the locktime is reached.
   */
  lemma {:induction false} WhoMaySpend(e: Spending, h: Bytes, recipient: Bytes, refund: Bytes, locktime: int,
                                       items: seq<Bytes>)
    requires RedeemScript(h, recipient, refund, locktime).Some?
    ensures Unlocks(e, RedeemScript(h, recipient, refund, locktime).value, items)
            <==> Claims(e, items, h, recipient) || Refunds(e, items, refund, locktime)
  {
    ScriptNumRoundTrip(locktime);
    if |items| == 0 {
      EmptyWitness(e, h, recipient, refund, locktime);
    } else {
      var st, c := items[..|items| - 1], items[|items| - 1];
      assert items == st + [c];
      RunRedeem(e, h, recipient, refund, locktime, st, c);
      OneIsTrue();
    }
  }

  lemma OneIsTrue()
    ensures Truthy([1]) && !Truthy([])
  {
    assert [1 as Byte][0] != 0;
  }
}
