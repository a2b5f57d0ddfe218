/** What the terminal chatbot's turn and read loop guarantee. */
module CliProperties {
  import opened Generator
  import opened Text
  import opened Cli

  /** A turn keeps the old history as a prefix, follows it with the user entry, and adds at most the answer. */
  lemma TurnAppends(history: seq<Message>, userMessage: string, gen: seq<Content> -> Outcome)
    ensures var next := ChatTurn(history, userMessage, gen).0;
            && |history| < |next| <= |history| + 2
            && next[..|history|] == history
            && next[|history|] == Message(User, userMessage)
  {
  }

  /** A turn whose generator fails keeps the user entry alone and answers the error text. */
  lemma TurnFails(history: seq<Message>, userMessage: string, gen: seq<Content> -> Outcome)
    requires gen(Contents(history + [Message(User, userMessage)])).Throws?
    ensures ChatTurn(history, userMessage, gen) == (history + [Message(User, userMessage)], ErrorReply)
    ensures ChatTurn(history, userMessage, gen).1 != ""
  {
  }

  /** A turn whose generator answers records the non-empty reply it returns, after the user entry. */
  lemma TurnAnswered(history: seq<Message>, userMessage: string, gen: seq<Content> -> Outcome)
    requires gen(Contents(history + [Message(User, userMessage)])).Text?
    ensures var (next, reply) := ChatTurn(history, userMessage, gen);
            && next == history + [Message(User, userMessage), Message(Model, reply)]
            && reply != ""
            && reply == ReplyText(gen(Contents(history + [Message(User, userMessage)])).text)
  {
  }

  /** A turn that is answered keeps the history made of complete exchanges. */
  lemma TurnKeepsPaired(history: seq<Message>, userMessage: string, gen: seq<Content> -> Outcome)
    requires Paired(history)
    requires gen(Contents(history + [Message(User, userMessage)])).Text?
    ensures Paired(ChatTurn(history, userMessage, gen).0)
  {
    var next := ChatTurn(history, userMessage, gen).0;
    assert |next| == |history| + 2;
    forall i | 0 <= i < |next|
      ensures next[i].role == (if i % 2 == 0 then User else Model)
    {
      if i < |history| {
        assert next[i] == history[i];
      }
    }
  }

  /** A turn whose generator fails leaves the user entry without an answer. */
  lemma FailedTurnUnpairs(history: seq<Message>, userMessage: string, gen: seq<Content> -> Outcome)
    requires Paired(history)
    requires gen(Contents(history + [Message(User, userMessage)])).Throws?
    ensures !Paired(ChatTurn(history, userMessage, gen).0)
  {
  }

  /** Each line keeps the history made of complete exchanges while the generator answers. */
  lemma StepKeepsPaired(history: seq<Message>, input: string, gen: seq<Content> -> Outcome)
    requires Paired(history) && NeverThrows(gen)
    ensures Paired(Step(history, input, gen).0)
  {
    match Classify(input)
    case Say(m) =>
      TurnKeepsPaired(history, m, gen);
    case _ =>
  }

  /** The read loop keeps the history made of complete exchanges while the generator answers. */
  lemma {:induction false} RunKeepsPaired(history: seq<Message>, inputs: seq<string>, gen: seq<Content> -> Outcome)
    requires Paired(history) && NeverThrows(gen)
    ensures Paired(Run(history, inputs, gen).history)
    decreases |inputs|
  {
    if inputs != [] {
      StepKeepsPaired(history, inputs[0], gen);
      var (next, running) := Step(history, inputs[0], gen);
      if running {
        RunKeepsPaired(next, inputs[1..], gen);
      }
    }
  }

  /** The read loop reads no quit word before the last line it reads. */
  lemma RunSkipsNoQuit(history: seq<Message>, inputs: seq<string>, gen: seq<Content> -> Outcome)
    ensures var r := Run(history, inputs, gen);
            forall i :: 0 <= i < r.read - 1 ==> !Classify(inputs[i]).Quit?
  {
    RunStopsAtFirstQuit(history, inputs, gen);
  }

  /** The read loop ends on a quit word at the latest, having read no line after it. */
  lemma {:induction false} RunStopsAtFirstQuit(history: seq<Message>, inputs: seq<string>, gen: seq<Content> -> Outcome)
    ensures var r := Run(history, inputs, gen);
            forall i :: 0 <= i < |inputs| && Classify(inputs[i]).Quit? ==> r.quit && r.read <= i + 1
    decreases |inputs|
  {
    if inputs != [] {
      var (next, running) := Step(history, inputs[0], gen);
      if running {
        RunStopsAtFirstQuit(next, inputs[1..], gen);
        QuitBoundShifts(inputs, Run(history, inputs, gen), Run(next, inputs[1..], gen));
      }
    }
  }

  /** A quit-word bound on the lines after the first carries over to all lines when the first line is no quit word. */
  lemma QuitBoundShifts(inputs: seq<string>, r: RunResult, rest: RunResult)
    requires inputs != [] && !Classify(inputs[0]).Quit? && r == ShiftRead(rest, 1)
    requires forall i :: 0 <= i < |inputs[1..]| && Classify(inputs[1..][i]).Quit? ==> rest.quit && rest.read <= i + 1
    ensures forall i :: 0 <= i < |inputs| && Classify(inputs[i]).Quit? ==> r.quit && r.read <= i + 1
  {
    forall i | 0 <= i < |inputs| && Classify(inputs[i]).Quit? ensures r.quit && r.read <= i + 1 {
      if i > 0 {
        assert inputs[i] == inputs[1..][i - 1];
      }
    }
  }

  /** Lines that neither chat nor clear leave the history as it was. */
  lemma {:induction false} CommandsKeepHistory(history: seq<Message>, inputs: seq<string>, gen: seq<Content> -> Outcome)
    requires forall i :: 0 <= i < |inputs| ==> !Classify(inputs[i]).Say? && !Classify(inputs[i]).Clear?
    ensures Run(history, inputs, gen).history == history
    decreases |inputs|
  {
    if inputs != [] {
      var (next, running) := Step(history, inputs[0], gen);
      if running {
        assert forall i :: 0 <= i < |inputs[1..]| ==> inputs[1..][i] == inputs[i + 1];
        CommandsKeepHistory(next, inputs[1..], gen);
      }
    }
  }

  /** One line adds at most one exchange to the history, or empties it. */
  lemma StepGrowth(history: seq<Message>, input: string, gen: seq<Content> -> Outcome)
    ensures |Step(history, input, gen).0| <= |history| + 2
  {
    if Classify(input).Say? {
      TurnAppends(history, Classify(input).message, gen);
    }
  }

  /** Each line adds at most one exchange to the history. */
  lemma {:induction false} RunGrowth(history: seq<Message>, inputs: seq<string>, gen: seq<Content> -> Outcome)
    ensures |Run(history, inputs, gen).history| <= |history| + 2 * |inputs|
    decreases |inputs|
  {
    if inputs != [] {
      var (next, running) := Step(history, inputs[0], gen);
      StepGrowth(history, inputs[0], gen);
      if running {
        RunGrowth(next, inputs[1..], gen);
      }
    }
  }

  /** How many lines chat before the first quit word. */
  function ChatLines(inputs: seq<string>): nat
  {
    if inputs == [] || Classify(inputs[0]).Quit? then 0
    else (if Classify(inputs[0]).Say? then 1 else 0) + ChatLines(inputs[1..])
  }

  /** A line other than `clear` adds two entries when it chats and none otherwise. */
  lemma StepCountsTurn(history: seq<Message>, input: string, gen: seq<Content> -> Outcome)
    requires NeverThrows(gen) && !Classify(input).Clear?
    ensures |Step(history, input, gen).0| == |history| + (if Classify(input).Say? then 2 else 0)
  {
    if Classify(input).Say? {
      TurnAnswered(history, Classify(input).message, gen);
    }
  }

  /** With a generator that always answers and no `clear`, each chat line before the quit word adds exactly two entries. */
  lemma {:induction false} RunCountsTurns(history: seq<Message>, inputs: seq<string>, gen: seq<Content> -> Outcome)
    requires NeverThrows(gen)
    requires forall i :: 0 <= i < |inputs| ==> !Classify(inputs[i]).Clear?
    ensures |Run(history, inputs, gen).history| == |history| + 2 * ChatLines(inputs)
    decreases |inputs|
  {
    if inputs != [] {
      var (next, running) := Step(history, inputs[0], gen);
      StepCountsTurn(history, inputs[0], gen);
      if running {
        assert forall i :: 0 <= i < |inputs[1..]| ==> inputs[1..][i] == inputs[i + 1];
        RunCountsTurns(next, inputs[1..], gen);
      }
    }
  }

  /**
   * How many chat lines the history holds exchanges for, after `base`
   * exchanges already there: `clear` starts the count again and the first
   * quit word ends it.
   */
  function TurnsSinceClear(inputs: seq<string>, base: nat): nat
  {
    if inputs == [] then base
    else match Classify(inputs[0])
      case Quit => base
      case Clear => TurnsSinceClear(inputs[1..], 0)
      case Say(_) => TurnsSinceClear(inputs[1..], base + 1)
      case _ => TurnsSinceClear(inputs[1..], base)
  }

  /** With a generator that always answers, the history ends with two entries per chat line since the last `clear`. */
  lemma {:induction false} RunCountsTurnsSinceClear(history: seq<Message>, inputs: seq<string>, gen: seq<Content> -> Outcome, k: nat)
    requires NeverThrows(gen) && |history| == 2 * k
    ensures |Run(history, inputs, gen).history| == 2 * TurnsSinceClear(inputs, k)
    decreases |inputs|
  {
    if inputs != [] {
      var (next, running) := Step(history, inputs[0], gen);
      if running {
        var c := Classify(inputs[0]);
        if c.Clear? {
          RunCountsTurnsSinceClear(next, inputs[1..], gen, 0);
        } else {
          StepCountsTurn(history, inputs[0], gen);
          RunCountsTurnsSinceClear(next, inputs[1..], gen, if c.Say? then k + 1 else k);
        }
      }
    }
  }

  /**
   * The generator answers every chat line the read loop reaches, at the
   * contents that line sends; lines after a quit word are not reached.
   */
  ghost predicate Answers(history: seq<Message>, inputs: seq<string>, gen: seq<Content> -> Outcome)
    decreases |inputs|
  {
    inputs != [] ==>
      var c := Classify(inputs[0]);
      && (c.Say? ==> gen(Contents(history + [Message(User, c.message)])).Text?)
      && (!c.Quit? ==> Answers(Step(history, inputs[0], gen).0, inputs[1..], gen))
  }

  /** A line other than `clear` whose chat turn, if any, is answered adds two entries when it chats and none otherwise. */
  lemma StepCountsAnswered(history: seq<Message>, input: string, gen: seq<Content> -> Outcome)
    requires !Classify(input).Clear?
    requires Classify(input).Say? ==> gen(Contents(history + [Message(User, Classify(input).message)])).Text?
    ensures |Step(history, input, gen).0| == |history| + (if Classify(input).Say? then 2 else 0)
  {
    if Classify(input).Say? {
      TurnAnswered(history, Classify(input).message, gen);
    }
  }

  /** A line whose chat turn, if any, is answered keeps the history made of complete exchanges. */
  lemma StepKeepsPairedAnswered(history: seq<Message>, input: string, gen: seq<Content> -> Outcome)
    requires Paired(history)
    requires Classify(input).Say? ==> gen(Contents(history + [Message(User, Classify(input).message)])).Text?
    ensures Paired(Step(history, input, gen).0)
  {
    if Classify(input).Say? {
      TurnKeepsPaired(history, Classify(input).message, gen);
    }
  }

  /** While every chat line the loop reaches is answered, the history stays made of complete exchanges. */
  lemma {:induction false} RunKeepsPairedWhileAnswered(history: seq<Message>, inputs: seq<string>, gen: seq<Content> -> Outcome)
    requires Paired(history) && Answers(history, inputs, gen)
    ensures Paired(Run(history, inputs, gen).history)
    decreases |inputs|
  {
    if inputs != [] {
      StepKeepsPairedAnswered(history, inputs[0], gen);
      var (next, running) := Step(history, inputs[0], gen);
      if running {
        RunKeepsPairedWhileAnswered(next, inputs[1..], gen);
      }
    }
  }

  /** While every chat line the loop reaches is answered, the history ends with two entries per chat line since the last `clear`. */
  lemma {:induction false} RunCountsWhileAnswered(history: seq<Message>, inputs: seq<string>, gen: seq<Content> -> Outcome, k: nat)
    requires |history| == 2 * k && Answers(history, inputs, gen)
    ensures |Run(history, inputs, gen).history| == 2 * TurnsSinceClear(inputs, k)
    decreases |inputs|
  {
    if inputs != [] {
      var (next, running) := Step(history, inputs[0], gen);
      if running {
        var c := Classify(inputs[0]);
        var k' := if c.Clear? then 0 else if c.Say? then k + 1 else k;
        assert |next| == 2 * k' by {
          if !c.Clear? {
            StepCountsAnswered(history, inputs[0], gen);
          }
        }
        RunCountsWhileAnswered(next, inputs[1..], gen, k');
        assert TurnsSinceClear(inputs, k) == TurnsSinceClear(inputs[1..], k');
      }
    }
  }

  /**
   * From line `i` on, up to a `clear` at line `j` with no quit word in
   * between, the loop goes on after the `clear` as from an empty history.
   */
  lemma {:induction false} RunFromClear(history: seq<Message>, inputs: seq<string>, gen: seq<Content> -> Outcome, i: nat, j: nat)
    requires i <= j < |inputs| && Classify(inputs[j]).Clear?
    requires forall m :: i <= m < j ==> !Classify(inputs[m]).Quit?
    ensures Run(history, inputs[i..], gen) == ShiftRead(Run([], inputs[j + 1..], gen), j + 1 - i)
    decreases j - i
  {
    RunStep(history, inputs, i, gen);
    if i < j {
      var next := Step(history, inputs[i], gen).0;
      RunFromClear(next, inputs, gen, i + 1, j);
    }
  }

  /**
   * A `clear` repairs the history: whatever happened before it, failed turns
   * included, if every chat line after it is answered the final history is
   * made of complete exchanges, two entries per chat line after the `clear`.
   */
  lemma ClearRepairsPairing(history: seq<Message>, inputs: seq<string>, gen: seq<Content> -> Outcome, j: nat)
    requires j < |inputs| && Classify(inputs[j]).Clear?
    requires forall i :: 0 <= i < j ==> !Classify(inputs[i]).Quit?
    requires Answers([], inputs[j + 1..], gen)
    ensures Paired(Run(history, inputs, gen).history)
    ensures |Run(history, inputs, gen).history| == 2 * TurnsSinceClear(inputs[j + 1..], 0)
  {
    RunFromClear(history, inputs, gen, 0, j);
    assert inputs[0..] == inputs;
    RunKeepsPairedWhileAnswered([], inputs[j + 1..], gen);
    RunCountsWhileAnswered([], inputs[j + 1..], gen, 0);
  }

  /** White space around a line does not change how it is classified. */
  lemma ClassifyIgnoresPadding(pre: string, input: string, post: string)
    requires AllSpace(pre) && AllSpace(post)
    ensures Classify(pre + input + post) == Classify(input)
  {
    TrimIgnoresPadding(pre, input, post);
  }

  /**
   * Which word gives which command, after trimming and lower-casing: each
   * command word gives its command and never a chat turn, and every other
   * line that is not blank chats.
   */
  lemma ClassifyRecognisesCommands(input: string)
    ensures Classify(input).Quit? <==> IsQuitWord(Lower(Trim(input)))
    ensures Classify(input).Clear? <==> Lower(Trim(input)) == "clear"
    ensures Classify(input).ShowHistory? <==> Lower(Trim(input)) == "history"
    ensures Classify(input).ListModels? <==> Lower(Trim(input)) == "models"
    ensures Classify(input).Say? <==> !AllSpace(input) && Lower(Trim(input)) !in {"exit", "quit", "bye", "clear", "history", "models"}
  {
  }

  /** Commands are recognised whatever their case; lines that differ only in case chat alike. */
  lemma ClassifyIgnoresCase(a: string, b: string)
    requires Lower(Trim(a)) == Lower(Trim(b))
    ensures Classify(a).Say? <==> Classify(b).Say?
    ensures !Classify(a).Say? ==> Classify(a) == Classify(b)
  {
    ClassifyRecognisesCommands(a);
    ClassifyRecognisesCommands(b);
  }

  /** A line of blanks is skipped. */
  lemma ExampleBlankLine()
    ensures Classify(" \t ") == Blank
  {
  }
}
