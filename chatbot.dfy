/**
 * The terminal chatbot: a conversation history kept in memory, one chat
 * turn that appends the user's message and the model's answer, and the read
 * loop that trims each line, recognises the commands and chats otherwise.
 * The lines typed in are a sequence of inputs; the generator is a function
 * of the contents it is sent.
 */
module Cli {
  import opened Generator
  import opened Text

  /** What `chat` answers when the generator fails. */
  const ErrorReply := "Sorry, I encountered an error. Please try again."

  /** An entry of the history: `{ role, parts }` with `parts` a plain string. */
  datatype Message = Message(role: Role, parts: string)

  /** The history mapped to the `{ role, parts: [{ text }] }` contents the generator is sent. */
  function Contents(history: seq<Message>): (r: seq<Content>)
    ensures |r| == |history|
    ensures forall i :: 0 <= i < |history| ==> r[i] == Content(history[i].role, history[i].parts)
  {
    if history == [] then []
    else [Content(history[0].role, history[0].parts)] + Contents(history[1..])
  }

  /** A line as the read loop sees it. */
  datatype Command = Blank | Quit | Clear | ShowHistory | ListModels | Say(message: string)

  /** The command words, compared after trimming and lower-casing. */
  predicate IsQuitWord(lower: string)
  {
    lower == "exit" || lower == "quit" || lower == "bye"
  }

  /** How the read loop classifies one line. */
  function Classify(input: string): (c: Command)
    ensures c.Blank? <==> AllSpace(input)
    ensures c.Say? ==> c.message == Trim(input) && !IsSpace(c.message[0]) && !IsSpace(c.message[|c.message| - 1])
    ensures !c.Blank? && !c.Say? ==> Lower(Trim(input)) in {"exit", "quit", "bye", "clear", "history", "models"}
  {
    var trimmed := Trim(input);
    if trimmed == [] then Blank
    else
      var lower := Lower(trimmed);
      if IsQuitWord(lower) then Quit
      else if lower == "clear" then Clear
      else if lower == "history" then ShowHistory
      else if lower == "models" then ListModels
      else Say(trimmed)
  }

  /**
   * `chat(userMessage)`: the user entry is pushed first; when the generator
   * fails it stays and the error text is answered, otherwise the reply (or
   * the fallback for an empty one) is pushed and answered.
   */
  function ChatTurn(history: seq<Message>, userMessage: string, gen: seq<Content> -> Outcome): (r: (seq<Message>, string))
    ensures var sent := history + [Message(User, userMessage)];
            && |sent| <= |r.0| && r.0[..|sent|] == sent
            && |r.0| == |sent| + (if gen(Contents(sent)).Text? then 1 else 0)
            && (gen(Contents(sent)).Text? ==> r.0[|sent|] == Message(Model, r.1))
            && r.1 != ""
  {
    var sent := history + [Message(User, userMessage)];
    match gen(Contents(sent))
    case Throws => (sent, ErrorReply)
    case Text(t) =>
      var botResponse := ReplyText(t);
      (sent + [Message(Model, botResponse)], botResponse)
  }

  /** One pass of the read loop over one line: the new history, and whether the loop goes on. */
  function Step(history: seq<Message>, input: string, gen: seq<Content> -> Outcome): (r: (seq<Message>, bool))
    ensures r.1 <==> !Classify(input).Quit?
    ensures Classify(input).Clear? ==> r.0 == []
    ensures !Classify(input).Clear? && !Classify(input).Say? ==> r.0 == history
    ensures Classify(input).Say? ==> r.0 == ChatTurn(history, Trim(input), gen).0
  {
    match Classify(input)
    case Blank => (history, true)
    case Quit => (history, false)
    case Clear => ([], true)
    case ShowHistory => (history, true)
    case ListModels => (history, true)
    case Say(m) => (ChatTurn(history, m, gen).0, true)
  }

  /** Where the read loop ends: the history, how many lines it read, and whether it ended on a quit word. */
  datatype RunResult = RunResult(history: seq<Message>, read: nat, quit: bool)

  /** The read loop over `inputs`, ending at the first quit word or when the lines run out. */
  function Run(history: seq<Message>, inputs: seq<string>, gen: seq<Content> -> Outcome): (r: RunResult)
    ensures r.read <= |inputs|
    ensures r.quit ==> 0 < r.read && Classify(inputs[r.read - 1]).Quit?
    ensures !r.quit ==> r.read == |inputs|
    decreases |inputs|
  {
    if inputs == [] then RunResult(history, 0, false)
    else
      var (next, running) := Step(history, inputs[0], gen);
      if !running then
        assert Classify(inputs[0]).Quit?;
        RunResult(next, 1, true)
      else
        var rest := Run(next, inputs[1..], gen);
        assert rest.quit ==> inputs[1..][rest.read - 1] == inputs[rest.read];
        RunResult(rest.history, rest.read + 1, rest.quit)
  }

  /** A history of complete exchanges: user and model entries alternating, starting with the user. */
  ghost predicate Paired(history: seq<Message>)
  {
    && |history| % 2 == 0
    && forall i :: 0 <= i < |history| ==> history[i].role == (if i % 2 == 0 then User else Model)
  }

  /** A generator that always answers. */
  ghost predicate NeverThrows(gen: seq<Content> -> Outcome)
  {
    forall contents :: gen(contents).Text?
  }

  /** The terminal chatbot's state. */
  class Chatbot {
    var conversationHistory: seq<Message>

    constructor ()
      ensures conversationHistory == []
    {
      conversationHistory := [];
    }

    /** `chat(userMessage)`. */
    method Chat(userMessage: string, gen: seq<Content> -> Outcome) returns (reply: string)
      modifies this
      ensures (conversationHistory, reply) == ChatTurn(old(conversationHistory), userMessage, gen)
    {
      conversationHistory := conversationHistory + [Message(User, userMessage)];
      var contents := Contents(conversationHistory);
      var result := gen(contents);
      if result.Throws? {
        return ErrorReply;
      }
      var botResponse := ReplyText(result.text);
      conversationHistory := conversationHistory + [Message(Model, botResponse)];
      reply := botResponse;
    }

    /** `start()`: the read loop over the lines `inputs`. */
    method Start(inputs: seq<string>, gen: seq<Content> -> Outcome) returns (read: nat, quit: bool)
      modifies this
      ensures RunResult(conversationHistory, read, quit) == Run(old(conversationHistory), inputs, gen)
    {
      var running := true;
      var i := 0;
      while running
        invariant 0 <= i <= |inputs| && running
        invariant Run(old(conversationHistory), inputs, gen) == ShiftRead(Run(conversationHistory, inputs[i..], gen), i)
        decreases |inputs| - i
      {
        if i == |inputs| {
          break;
        }
        var userInput := inputs[i];
        RunStep(conversationHistory, inputs, i, gen);
        StepByWord(conversationHistory, userInput, gen);
        ghost var step := Step(conversationHistory, userInput, gen);
        i := i + 1;
        var trimmedInput := Trim(userInput);
        if trimmedInput == [] {
          assert step == (conversationHistory, true);
          continue;
        }
        var lowerInput := Lower(trimmedInput);
        if lowerInput == "exit" || lowerInput == "quit" || lowerInput == "bye" {
          assert step == (conversationHistory, false);
          running := false;
          break;
        }
        if lowerInput == "clear" {
          conversationHistory := [];
          assert step == (conversationHistory, true);
          continue;
        }
        if lowerInput == "history" {
          assert step == (conversationHistory, true);
          continue;
        }
        if lowerInput == "models" {
          assert step == (conversationHistory, true);
          continue;
        }
        var response := Chat(trimmedInput, gen);
        assert step == (conversationHistory, true);
      }
      read := i;
      quit := !running;
    }
  }

  /** `Run` from line `i` on is one `Step`, then `Run` from line `i + 1` on. */
  lemma RunStep(history: seq<Message>, inputs: seq<string>, i: nat, gen: seq<Content> -> Outcome)
    requires i < |inputs|
    ensures var (next, running) := Step(history, inputs[i], gen);
            Run(history, inputs[i..], gen) ==
              if running then ShiftRead(Run(next, inputs[i + 1..], gen), 1) else RunResult(next, 1, true)
  {
    assert inputs[i..][0] == inputs[i] && inputs[i..][1..] == inputs[i + 1..];
  }

  /** `Step` as the read loop tests it: trimmed line first, then the lower-cased words in turn. */
  lemma StepByWord(history: seq<Message>, input: string, gen: seq<Content> -> Outcome)
    ensures var trimmed := Trim(input);
            var lower := Lower(trimmed);
            Step(history, input, gen) ==
              if trimmed == [] then (history, true)
              else if lower == "exit" || lower == "quit" || lower == "bye" then (history, false)
              else if lower == "clear" then ([], true)
              else if lower == "history" || lower == "models" then (history, true)
              else (ChatTurn(history, trimmed, gen).0, true)
  {
  }

  /** A run that has already read `n` lines. */
  function ShiftRead(r: RunResult, n: nat): RunResult
  {
    r.(read := r.read + n)
  }
}
