/** Session-local ids: neoagent/v2/id_gen.py. */
module IdGenerator {
  import opened Prelude

  function Digit(d: nat): (c: char)
    requires d < 10
  {
    "0123456789"[d]
  }

  predicate IsDigit(c: char) { '0' <= c <= '9' }

  /** str.isdigit(), for ASCII text. */
  predicate AllDigits(s: string) {
    |s| > 0 && forall i :: 0 <= i < |s| ==> IsDigit(s[i])
  }

  /** str(n) for a natural number. */
  function Decimal(n: nat): (s: string)
    ensures |s| > 0 && AllDigits(s)
  {
    if n < 10 then [Digit(n)] else Decimal(n / 10) + [Digit(n % 10)]
  }

  function DigitValue(c: char): nat
    requires IsDigit(c)
  {
    c as int - '0' as int
  }

  /** int(s) for a text of ASCII digits; None stands for ValueError. */
  function ParseDecimal(s: string): Option<nat> {
    if !AllDigits(s) then None
    else if |s| == 1 then Some(DigitValue(s[0]))
    else
      match ParseDecimal(s[..|s| - 1])
      case None => None
      case Some(n) => Some(10 * n + DigitValue(s[|s| - 1]))
  }

  function MsgId(n: nat): string { "m" + Decimal(n) }

  function BatchId(n: nat): string { "cm_" + Decimal(n) }

  /** Printing and reading back a number is the identity. */
  lemma {:induction false} ParseOfDecimal(n: nat)
    ensures ParseDecimal(Decimal(n)) == Some(n)
  {
    if n >= 10 {
      ParseOfDecimal(n / 10);
      assert Decimal(n)[..|Decimal(n)| - 1] == Decimal(n / 10);
    }
  }

  lemma MsgIdInjective(a: nat, b: nat)
    ensures MsgId(a) == MsgId(b) ==> a == b
  {
    ParseOfDecimal(a);
    ParseOfDecimal(b);
    assert MsgId(a)[1..] == Decimal(a) && MsgId(b)[1..] == Decimal(b);
  }

  lemma BatchIdInjective(a: nat, b: nat)
    ensures BatchId(a) == BatchId(b) ==> a == b
  {
    ParseOfDecimal(a);
    ParseOfDecimal(b);
    assert BatchId(a)[3..] == Decimal(a) && BatchId(b)[3..] == Decimal(b);
  }

  /** Three independent counters, each incremented before it is printed. */
  class SessionIdGenerator {
    var msgCounter: nat
    var batchCounter: nat
    var decisionCounter: nat

    constructor ()
      ensures msgCounter == 0 && batchCounter == 0 && decisionCounter == 0
    {
      msgCounter, batchCounter, decisionCounter := 0, 0, 0;
    }

    constructor Restored(msgCounter: nat, batchCounter: nat, decisionCounter: nat)
      ensures this.msgCounter == msgCounter && this.batchCounter == batchCounter
      ensures this.decisionCounter == decisionCounter
    {
      this.msgCounter, this.batchCounter, this.decisionCounter := msgCounter, batchCounter, decisionCounter;
    }

    method NextMsgId() returns (id: string)
      modifies this`msgCounter
      ensures msgCounter == old(msgCounter) + 1
      ensures id == MsgId(msgCounter)
    {
      msgCounter := msgCounter + 1;
      id := "m" + Decimal(msgCounter);
    }

    method NextBatchId() returns (id: string)
      modifies this`batchCounter
      ensures batchCounter == old(batchCounter) + 1
      ensures id == BatchId(batchCounter)
    {
      batchCounter := batchCounter + 1;
      id := "cm_" + Decimal(batchCounter);
    }

    method NextDecisionId() returns (id: string)
      modifies this`decisionCounter
      ensures decisionCounter == old(decisionCounter) + 1
      ensures id == "d" + Decimal(decisionCounter)
    {
      decisionCounter := decisionCounter + 1;
      id := "d" + Decimal(decisionCounter);
    }
  }
}
