/** The business logic layer (`Operations`): viewing, crediting and debiting
    the balance held by a `DataProgram`, with the overflow and
    insufficient-funds guards, and the message each outcome displays. */
module Accounts {
  import opened Wrappers
  import opened Money
  import opened Store

  /** What one operation came to. */
  datatype Outcome =
    | Viewed(balance: int)
    | Credited(newBalance: int)
    | Debited(newBalance: int)
    | RejectedOverflow
    | RejectedInsufficientFunds
    | RejectedInvalidInput

  /** An outcome together with the balance the store holds afterwards. */
  datatype Step = Step(outcome: Outcome, balance: int)

  const ViewPrefix: string := "Current balance: "
  const CreditPrefix: string := "Amount credited. New balance: "
  const DebitPrefix: string := "Amount debited. New balance: "
  const OverflowMessage: string := "Error: " + "Balance would exceed maximum allowed value of $999,999.99"
  const InsufficientFundsMessage: string := "Insufficient funds for this debit."
  const InvalidAmountMessage: string := "Invalid amount. " + "Please enter a positive number."

  /** The line the source logs for an outcome; its first characters tell
      which of the six kinds of outcome it reports. */
  function Message(o: Outcome): (m: string)
    ensures KindOfMessage(m) == Kind(o)
  {
    match o
    case Viewed(b) => ViewPrefix + FormatBalance(b)
    case Credited(b) => CreditPrefix + FormatBalance(b)
    case Debited(b) => DebitPrefix + FormatBalance(b)
    case RejectedOverflow => OverflowMessage
    case RejectedInsufficientFunds => InsufficientFundsMessage
    case RejectedInvalidInput => InvalidAmountMessage
  }

  /** `creditAccount` on a balance, given the validated amount (`None` when
      the input was rejected). Only a credit that stays within 999999.99
      changes the balance, and then by exactly the amount. */
  function Credit(balance: int, amount: Option<nat>): (r: Step)
    ensures r.outcome.RejectedInvalidInput? <==> amount.None?
    ensures r.outcome.Credited? <==> amount.Some? && balance + amount.value <= MaxBalance
    ensures r.outcome.RejectedOverflow? <==> amount.Some? && balance + amount.value > MaxBalance
    ensures r.outcome.Credited? ==> r.balance == r.outcome.newBalance == balance + amount.value
    ensures !r.outcome.Credited? ==> r.balance == balance
    ensures r.outcome.Credited? ==> r.balance <= MaxBalance
    ensures InRange(balance) ==> InRange(r.balance)
  {
    match amount
    case None => Step(RejectedInvalidInput, balance)
    case Some(a) =>
      var newBalance := balance + a;
      if newBalance > MaxBalance then Step(RejectedOverflow, balance)
      else Step(Credited(newBalance), newBalance)
  }

  /** `debitAccount` on a balance, given the validated amount. A debit of at
      most the balance (equality included) goes through; anything larger is
      refused and changes nothing. */
  function Debit(balance: int, amount: Option<nat>): (r: Step)
    ensures r.outcome.RejectedInvalidInput? <==> amount.None?
    ensures r.outcome.Debited? <==> amount.Some? && balance >= amount.value
    ensures r.outcome.RejectedInsufficientFunds? <==> amount.Some? && balance < amount.value
    ensures r.outcome.Debited? ==> r.balance == r.outcome.newBalance == balance - amount.value
    ensures !r.outcome.Debited? ==> r.balance == balance
    ensures r.outcome.Debited? ==> r.balance >= 0
    ensures InRange(balance) ==> InRange(r.balance)
  {
    match amount
    case None => Step(RejectedInvalidInput, balance)
    case Some(a) =>
      if balance >= a then Step(Debited(balance - a), balance - a)
      else Step(RejectedInsufficientFunds, balance)
  }

  /** The operation tags `process` understands, padding included. */
  const TotalTag: string := "TOTAL "
  const CreditTag: string := "CREDIT"
  const DebitTag: string := "DEBIT "

  /** `process`: view, credit or debit according to the tag; any other tag
      does nothing. `input` is the amount the credit or debit prompt reads. */
  function Perform(tag: string, balance: int, input: Parsed): (r: Option<Step>)
    ensures r.Some? <==> tag in [TotalTag, CreditTag, DebitTag]
    ensures r.Some? && InRange(balance) ==> InRange(r.value.balance)
    ensures r.Some? && !r.value.outcome.Credited? && !r.value.outcome.Debited? ==>
      r.value.balance == balance
    ensures tag == TotalTag ==> r == Some(Step(Viewed(balance), balance))
    ensures tag == CreditTag ==> r == Some(Credit(balance, ValidateAmount(input)))
    ensures tag == DebitTag ==> r == Some(Debit(balance, ValidateAmount(input)))
  {
    if tag == TotalTag then Some(Step(Viewed(balance), balance))
    else if tag == CreditTag then Some(Credit(balance, ValidateAmount(input)))
    else if tag == DebitTag then Some(Debit(balance, ValidateAmount(input)))
    else None
  }

  /** Which of the six kinds an outcome is. */
  function Kind(o: Outcome): nat
  {
    match o
    case Viewed(_) => 0
    case Credited(_) => 1
    case Debited(_) => 2
    case RejectedOverflow => 3
    case RejectedInsufficientFunds => 4
    case RejectedInvalidInput => 5
  }

  /** Tells the kind of outcome from the first characters of its message. */
  function KindOfMessage(m: string): nat
  {
    if |m| < 8 then 6
    else if m[0] == 'C' then 0
    else if m[0] == 'A' then (if m[7] == 'c' then 1 else 2)
    else if m[0] == 'E' then 3
    else if m[2] == 's' then 4
    else 5
  }

  lemma PrefixCancels(p: string, x: string, y: string)
    requires p + x == p + y
    ensures x == y
  {
    assert x == (p + x)[|p|..];
    assert y == (p + y)[|p|..];
  }

  /** Each outcome has a message of its own: the logged line tells which
      outcome occurred and, for a view, credit or debit, the exact balance. */
  lemma MessageInjective(o1: Outcome, o2: Outcome)
    requires Message(o1) == Message(o2)
    ensures o1 == o2
  {
    match o1
    case Viewed(b1) =>
      PrefixCancels(ViewPrefix, FormatBalance(b1), FormatBalance(o2.balance));
      FormatBalanceInjective(b1, o2.balance);
    case Credited(b1) =>
      PrefixCancels(CreditPrefix, FormatBalance(b1), FormatBalance(o2.newBalance));
      FormatBalanceInjective(b1, o2.newBalance);
    case Debited(b1) =>
      PrefixCancels(DebitPrefix, FormatBalance(b1), FormatBalance(o2.newBalance));
      FormatBalanceInjective(b1, o2.newBalance);
    case RejectedOverflow =>
    case RejectedInsufficientFunds =>
    case RejectedInvalidInput =>
  }

  /** On a non-negative balance, a successful credit followed by a debit of
      the same amount restores the balance. */
  lemma CreditThenDebitRestores(balance: int, a: nat)
    requires balance >= 0
    requires Credit(balance, Some(a)).outcome.Credited?
    ensures Debit(Credit(balance, Some(a)).balance, Some(a)) == Step(Debited(balance), balance)
  {
  }

  /** A debit of the whole balance is allowed and leaves exactly 0.00. */
  lemma DebitWholeBalance(balance: nat)
    ensures Debit(balance, Some(balance)) == Step(Debited(0), 0)
  {
  }

  /** A credit of 0.00 succeeds on any balance within range. */
  lemma CreditZero(balance: int)
    requires InRange(balance)
    ensures Credit(balance, Some(0)) == Step(Credited(balance), balance)
  {
  }

  /** The boundary cases: 1000.00 + 998999.99 reaches 999999.99 exactly;
      1000.00 + 999000.00 is refused; 0.01 cannot be debited from 0.00. */
  lemma Boundaries()
    ensures Credit(InitialBalance, Some(99899999)) == Step(Credited(MaxBalance), MaxBalance)
    ensures Credit(InitialBalance, Some(99900000)) == Step(RejectedOverflow, InitialBalance)
    ensures Debit(0, Some(1)) == Step(RejectedInsufficientFunds, 0)
    ensures Debit(InitialBalance, Some(InitialBalance)) == Step(Debited(0), 0)
  {
  }

  /** The source's scenarios: 50.00 credited to a fresh store, 600.00 asked
      of 500.00, and 1000.00 debited from a fresh store. */
  lemma ScenarioMessages()
    ensures Message(Credit(InitialBalance, Some(5000)).outcome)
         == "Amount credited. New balance: 1050.00"
    ensures Debit(50000, Some(60000)) == Step(RejectedInsufficientFunds, 50000)
    ensures Message(Debit(50000, Some(60000)).outcome) == "Insufficient funds for this debit."
    ensures Message(Debit(InitialBalance, Some(InitialBalance)).outcome)
         == "Amount debited. New balance: 0.00"
  {
    FormatExamples();
  }

  class Operations {
    /** The store this layer reads and writes. */
    const dataProgram: DataProgram

    constructor (dataProgram: DataProgram)
      ensures this.dataProgram == dataProgram
    {
      this.dataProgram := dataProgram;
    }

    /** `viewBalance`: reports the stored balance and changes nothing. */
    method ViewBalance() returns (o: Outcome)
      ensures o == Viewed(dataProgram.storageBalance)
    {
      var finalBalance := dataProgram.ExecuteRead();
      o := Viewed(finalBalance);
    }

    /** `creditAccount`: validate the amount typed at the prompt, read the
        balance, refuse a sum above 999999.99, otherwise write it back. */
    method CreditAccount(input: Parsed) returns (o: Outcome)
      modifies dataProgram
      ensures Step(o, dataProgram.storageBalance)
           == Credit(old(dataProgram.storageBalance), ValidateAmount(input))
    {
      var amount := ValidateAmount(input);
      if amount.None? {
        return RejectedInvalidInput;
      }
      var currentBalance := dataProgram.ExecuteRead();
      var newBalance := currentBalance + amount.value;
      if newBalance > MaxBalance {
        return RejectedOverflow;
      }
      var _ := dataProgram.ExecuteWrite(newBalance);
      o := Credited(newBalance);
    }

    /** `debitAccount`: validate the amount typed at the prompt, read the
        balance, and subtract only when the balance covers the amount. */
    method DebitAccount(input: Parsed) returns (o: Outcome)
      modifies dataProgram
      ensures Step(o, dataProgram.storageBalance)
           == Debit(old(dataProgram.storageBalance), ValidateAmount(input))
    {
      var amount := ValidateAmount(input);
      if amount.None? {
        return RejectedInvalidInput;
      }
      var currentBalance := dataProgram.ExecuteRead();
      if currentBalance >= amount.value {
        var newBalance := currentBalance - amount.value;
        var _ := dataProgram.ExecuteWrite(newBalance);
        o := Debited(newBalance);
      } else {
        o := RejectedInsufficientFunds;
      }
    }

    /** `process`: dispatch on the operation tag; an unknown tag does nothing. */
    method Process(tag: string, input: Parsed) returns (r: Option<Outcome>)
      modifies dataProgram
      ensures var step := Perform(tag, old(dataProgram.storageBalance), input);
        if step.Some? then r == Some(step.value.outcome) && dataProgram.storageBalance == step.value.balance
        else r.None? && dataProgram.storageBalance == old(dataProgram.storageBalance)
    {
      if tag == TotalTag {
        var o := ViewBalance();
        r := Some(o);
      } else if tag == CreditTag {
        var o := CreditAccount(input);
        r := Some(o);
      } else if tag == DebitTag {
        var o := DebitAccount(input);
        r := Some(o);
      } else {
        r := None;
      }
    }
  }
}
