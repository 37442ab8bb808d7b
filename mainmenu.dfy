/** The presentation layer (`MainProgram`): the menu choice dispatch of
    `processChoice`, the continue flag, and the `run` loop over a session's
    input, with the balance held by the store underneath. */
module MainMenu {
  import opened Wrappers
  import opened Money
  import opened Store
  import opened Accounts

  /** `continueFlag`: 'YES' while the menu loop goes on, 'NO' once the user exits. */
  datatype Flag = Yes | No

  const InvalidChoiceMessage: string := "Invalid choice, please select 1-4."
  const GoodbyeMessage: string := "Exiting the program. Goodbye!"

  /** The operation tag that `processChoice` passes to `process` for a menu
      choice (the result of `parseInt`, `None` for NaN); choices 4 and
      anything else have none. */
  function ChoiceTag(choice: Option<int>): (r: Option<string>)
    ensures r.Some? <==> choice.Some? && 1 <= choice.value <= 3
    ensures r.Some? ==> r.value in [TotalTag, CreditTag, DebitTag]
  {
    match choice
    case Some(1) => Some(TotalTag)
    case Some(2) => Some(CreditTag)
    case Some(3) => Some(DebitTag)
    case _ => None
  }

  /** Different menu choices never lead to the same operation. */
  lemma ChoiceTagInjective(c1: Option<int>, c2: Option<int>)
    requires ChoiceTag(c1).Some? && ChoiceTag(c1) == ChoiceTag(c2)
    ensures c1 == c2
  {
  }

  /** What one call of `processChoice` did. */
  datatype Effect =
    | Dispatched(tag: string, outcome: Outcome)
    | Exit
    | InvalidChoice

  /** The state a session runs in: the continue flag and the stored balance. */
  datatype Session = Session(flag: Flag, balance: int)

  datatype Turn = Turn(effect: Effect, next: Session)

  /** `processChoice` on a session. Choices 1 to 3 run the matching operation
      and keep the flag; 4 sets the flag to 'NO' and touches no balance; any
      other choice reports an error and changes nothing. */
  function Choose(s: Session, choice: Option<int>, input: Parsed): (t: Turn)
    ensures choice == Some(4) <==> t.effect.Exit?
    ensures t.effect.Exit? ==> t.next == Session(No, s.balance)
    ensures t.effect.InvalidChoice? <==> ChoiceTag(choice).None? && choice != Some(4)
    ensures t.effect.InvalidChoice? ==> t.next == s
    ensures t.effect.Dispatched? <==> ChoiceTag(choice).Some?
    ensures t.effect.Dispatched? ==> t.effect.tag == ChoiceTag(choice).value && t.next.flag == s.flag
    ensures InRange(s.balance) ==> InRange(t.next.balance)
  {
    match ChoiceTag(choice)
    case Some(tag) =>
      var step := Perform(tag, s.balance, input).value;
      Turn(Dispatched(tag, step.outcome), Session(s.flag, step.balance))
    case None =>
      if choice == Some(4) then Turn(Exit, Session(No, s.balance))
      else Turn(InvalidChoice, s)
  }

  /** Choices 1, 2 and 3 run exactly the view, the credit and the debit. */
  lemma ChoicesDispatch(s: Session, input: Parsed)
    ensures Choose(s, Some(1), input) == Turn(Dispatched(TotalTag, Viewed(s.balance)), s)
    ensures var c := Credit(s.balance, ValidateAmount(input));
      Choose(s, Some(2), input) == Turn(Dispatched(CreditTag, c.outcome), Session(s.flag, c.balance))
    ensures var d := Debit(s.balance, ValidateAmount(input));
      Choose(s, Some(3), input) == Turn(Dispatched(DebitTag, d.outcome), Session(s.flag, d.balance))
  {
  }

  /** The lines one call of `processChoice` logs. */
  function Lines(e: Effect): (lines: seq<string>)
    ensures |lines| == if e.Exit? then 0 else 1
    ensures e.InvalidChoice? ==> lines == [InvalidChoiceMessage]
    ensures e.Dispatched? ==> KindOfMessage(lines[0]) == Kind(e.outcome)
  {
    match e
    case Dispatched(_, o) => [Message(o)]
    case Exit => []
    case InvalidChoice => [InvalidChoiceMessage]
  }

  /** One turn of input: the menu choice, and the amount the credit or debit
      prompt would read (unused for the other choices). */
  datatype Request = Request(choice: Option<int>, amount: Parsed)

  /** Where a run ends: the final session, the lines logged, and how many
      requests it took. */
  datatype RunResult = RunResult(final: Session, transcript: seq<string>, consumed: nat)

  function Prepend(lines: seq<string>, n: nat, r: RunResult): RunResult
  {
    RunResult(r.final, lines + r.transcript, n + r.consumed)
  }

  /** The `run` loop over a finite script of requests: turns are taken while
      the flag is 'YES'; once it is not, the goodbye line is logged and no
      further input is read. Running out of script stands for waiting on input. */
  function RunFrom(s: Session, script: seq<Request>): (r: RunResult)
    ensures r.consumed <= |script|
    ensures r.final.flag == Yes ==> r.consumed == |script|
    ensures s.flag == Yes && r.final.flag == No ==>
      r.consumed >= 1 && script[r.consumed - 1].choice == Some(4)
    ensures InRange(s.balance) ==> InRange(r.final.balance)
    decreases |script|
  {
    if s.flag != Yes then RunResult(s, [GoodbyeMessage], 0)
    else if script == [] then RunResult(s, [], 0)
    else
      var t := Choose(s, script[0].choice, script[0].amount);
      Prepend(Lines(t.effect), 1, RunFrom(t.next, script[1..]))
  }

  /** Choosing 4 ends the session at once: nothing after it is read, the
      balance is as the turns before it left it, and the last line is the goodbye. */
  lemma {:induction false} ExitEndsRun(s: Session, script: seq<Request>, k: nat)
    requires s.flag == Yes && k < |script| && script[k].choice == Some(4)
    ensures RunFrom(s, script).final.flag == No
    ensures RunFrom(s, script).consumed <= k + 1
    ensures var tr := RunFrom(s, script).transcript; |tr| >= 1 && tr[|tr| - 1] == GoodbyeMessage
    decreases |script|
  {
    var t := Choose(s, script[0].choice, script[0].amount);
    if t.next.flag == No {
      assert RunFrom(t.next, script[1..]) == RunResult(t.next, [GoodbyeMessage], 0);
    } else {
      assert k > 0;
      ExitEndsRun(t.next, script[1..], k - 1);
    }
  }

  /** Viewing the balance any number of times changes nothing and logs the
      same line each time. */
  lemma {:induction false} ViewsChangeNothing(s: Session, script: seq<Request>)
    requires s.flag == Yes
    requires forall i :: 0 <= i < |script| ==> script[i].choice == Some(1)
    ensures RunFrom(s, script)
         == RunResult(s, seq(|script|, _ => ViewPrefix + FormatBalance(s.balance)), |script|)
  {
    if script != [] {
      ViewsChangeNothing(s, script[1..]);
    }
  }

  /** Starting from a fresh store: credit 100.00, debit 200.00, credit 300.00,
      then exit, ends with 1200.00 and the goodbye line. */
  lemma {:induction false} MixedSession()
    ensures var script := [Request(Some(2), Number(100.0)), Request(Some(3), Number(200.0)),
                           Request(Some(2), Number(300.0)), Request(Some(4), NaN)];
      var r := RunFrom(Session(Yes, InitialBalance), script);
      r.final == Session(No, 120000) && r.consumed == 4
      && r.transcript[3] == GoodbyeMessage
  {
    var script := [Request(Some(2), Number(100.0)), Request(Some(3), Number(200.0)),
                   Request(Some(2), Number(300.0)), Request(Some(4), NaN)];
    ExactCentsKept(10000);
    ExactCentsKept(20000);
    ExactCentsKept(30000);
    assert ValidateAmount(Number(100.0)) == Some(10000);
    assert ValidateAmount(Number(200.0)) == Some(20000);
    assert ValidateAmount(Number(300.0)) == Some(30000);
    var s1 := Choose(Session(Yes, InitialBalance), Some(2), Number(100.0)).next;
    assert s1 == Session(Yes, 110000);
    var s2 := Choose(s1, Some(3), Number(200.0)).next;
    assert s2 == Session(Yes, 90000);
    var s3 := Choose(s2, Some(2), Number(300.0)).next;
    assert s3 == Session(Yes, 120000);
    assert RunFrom(s3, script[3..]) == RunResult(Session(No, 120000), [GoodbyeMessage], 1);
    assert RunFrom(s2, script[2..]).final == Session(No, 120000);
    assert RunFrom(s1, script[1..]).final == Session(No, 120000);
  }

  class MainProgram {
    const dataProgram: DataProgram
    const operations: Operations
    var continueFlag: Flag

    /** The operations layer works on this program's own store. */
    ghost predicate Valid() {
      operations.dataProgram == dataProgram
    }

    /** The session as the flag and the store hold it. */
    ghost function Snapshot(): Session
      reads this, dataProgram
    {
      Session(continueFlag, dataProgram.storageBalance)
    }

    constructor ()
      ensures Valid() && fresh(dataProgram) && fresh(operations)
      ensures Snapshot() == Session(Yes, InitialBalance)
    {
      var store := new DataProgram();
      dataProgram := store;
      operations := new Operations(store);
      continueFlag := Yes;
    }

    /** `processChoice`: map the choice to an operation tag and run it,
        exit on 4, or report an invalid choice. */
    method ProcessChoice(choice: Option<int>, input: Parsed) returns (e: Effect)
      requires Valid()
      modifies this, dataProgram
      ensures Turn(e, Snapshot()) == Choose(old(Snapshot()), choice, input)
    {
      var tag := ChoiceTag(choice);
      if tag.Some? {
        var r := operations.Process(tag.value, input);
        e := Dispatched(tag.value, r.value);
      } else if choice == Some(4) {
        continueFlag := No;
        e := Exit;
      } else {
        e := InvalidChoice;
      }
    }

    /** `run`: take turns from the script while the flag is 'YES', then log
        the goodbye line once the user has exited. */
    method Run(script: seq<Request>) returns (transcript: seq<string>, consumed: nat)
      requires Valid()
      modifies this, dataProgram
      ensures RunFrom(old(Snapshot()), script) == RunResult(Snapshot(), transcript, consumed)
    {
      transcript, consumed := [], 0;
      while continueFlag == Yes && consumed < |script|
        invariant consumed <= |script|
        invariant RunFrom(old(Snapshot()), script)
               == Prepend(transcript, consumed, RunFrom(Snapshot(), script[consumed..]))
        decreases |script| - consumed
      {
        assert script[consumed..][1..] == script[consumed + 1..];
        var e := ProcessChoice(script[consumed].choice, script[consumed].amount);
        transcript := transcript + Lines(e);
        consumed := consumed + 1;
      }
      if continueFlag != Yes {
        transcript := transcript + [GoodbyeMessage];
      }
    }
  }
}
