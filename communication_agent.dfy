/** The communication agent: the chat log kept with the chatbot, the pending question built
    from a choice list, and the reply to each question, either echoed from the user's own
    tokens or asked of the chatbot (or, in User mode, read from the console). */
module Communication {
  import opened Wrappers
  import opened Text

  datatype Mode = User | AIBot | AIBotWebWhisper

  /** A message of the chat log. */
  datatype ChatMessage = SystemMessage(content: string) | UserMessage(content: string)

  /** The modes that talk to the chatbot and keep a chat log. */
  predicate IsBot(mode: Mode)
  {
    mode == AIBot || mode == AIBotWebWhisper
  }

  /** The first system message of BotIntroduction (BRIEF_START configuration). */
  const BriefStartRules: string :=
    "Build a trasformation query sequentially from left to right. You always get all next possible actions and you must always choose one."

  /** The second system message: the worked example. */
  const BriefStartExample: string :=
    "Let me show you an example: \n" +
    "Sort the people by their names and filter out those born outside Prague. \n" +
    "First step would be built like: \n" +
    "> [0] SortBy, \n" +
    "> [1] FilterBy, \n" +
    "> [2] GroupBy, \n" +
    "> [3] DropColumn \n" +
    "Your answer: \n" +
    "0"

  /** The third system message: how to answer. */
  const BriefStartAnswering: string :=
    "Only answer with a number from the brackets. If the answer should not be a number, write the whole appropriate word."

  /** BotIntroduction: the three system messages every new chat starts with. */
  function Introduction(): seq<ChatMessage>
  {
    [SystemMessage(BriefStartRules), SystemMessage(BriefStartExample), SystemMessage(BriefStartAnswering)]
  }

  /** One listed choice: its position in brackets, then the choice. */
  function ChoiceLine(i: int, choice: string): string
  {
    "> [" + IntToString(i) + "] " + choice + "\n"
  }

  /** The listing of the choices, numbered from 0 in order. */
  function ChoiceLines(choices: seq<string>): string
  {
    if choices == [] then ""
    else
      var last := |choices| - 1;
      ChoiceLines(choices[..last]) + ChoiceLine(last, choices[last])
  }

  /** The question CreateNextQuestion prepares: the question, the numbered choices (none when
      the choice list is null) and an empty line. */
  function QuestionText(question: string, choices: Option<seq<string>>): string
  {
    question + "\n" + (if choices.Some? then ChoiceLines(choices.value) else "") + "\n"
  }

  /** The listing of a prefix of the choices is a prefix of the listing. */
  lemma {:induction false} ChoiceLinesPrefix(choices: seq<string>, k: nat)
    requires k <= |choices|
    ensures ChoiceLines(choices[..k]) <= ChoiceLines(choices)
  {
    if k < |choices| {
      var last := |choices| - 1;
      ChoiceLinesPrefix(choices[..last], k);
      assert choices[..last][..k] == choices[..k];
    } else {
      assert choices[..k] == choices;
    }
  }

  /** The listing of one more choice adds that choice's line. */
  lemma ChoiceLinesStep(choices: seq<string>, i: nat)
    requires i < |choices|
    ensures ChoiceLines(choices[..i + 1]) == ChoiceLines(choices[..i]) + ChoiceLine(i, choices[i])
  {
    var prefix := choices[..i + 1];
    assert prefix[..i] == choices[..i] && prefix[i] == choices[i];
  }

  /** Every choice is listed, in order, on a line numbered with its position: the question
      text begins with the lines of the choices before it followed by its own line. */
  lemma ChoiceListed(question: string, choices: seq<string>, i: nat)
    requires i < |choices|
    ensures question + "\n" + ChoiceLines(choices[..i]) + ChoiceLine(i, choices[i]) <= QuestionText(question, Some(choices))
  {
    var head := question + "\n";
    var listed := ChoiceLines(choices[..i + 1]);
    ChoiceLinesStep(choices, i);
    ChoiceLinesPrefix(choices, i + 1);
    assert head + ChoiceLines(choices[..i]) + ChoiceLine(i, choices[i]) == head + listed;
    PrefixAfterHead(head, listed, ChoiceLines(choices), "\n");
  }

  /** A prefix stays a prefix behind a common head and before any tail. */
  lemma PrefixAfterHead(head: string, a: string, b: string, tail: string)
    requires a <= b
    ensures head + a <= head + b + tail
  {
    assert (head + b + tail)[..|head + a|] == head + a;
  }

  /** The agent that talks to the chatbot (AIBot) or to the console (User). The chatbot is a
      function from the chat log to its reply; the console is the sequence of lines it reads,
      None standing for the end of the input. */
  class CommunicationAgent {
    const mode: Mode
    const hasApi: bool
    const bot: seq<ChatMessage> -> string
    const console: nat -> Option<string>

    var chat: seq<ChatMessage>
    var userInputQuery: string
    var nextComingQuestion: string
    /** How many console lines have been read. */
    var consoleReads: nat
    /** How many replies have been asked of the chatbot. */
    ghost var botRequests: nat

    /** The constructor taking an API: AIBot mode. */
    constructor WithApi(bot: seq<ChatMessage> -> string)
      ensures mode == AIBot && hasApi && this.bot == bot
      ensures chat == [] && userInputQuery == "" && nextComingQuestion == "" && consoleReads == 0 && botRequests == 0
    {
      this.mode := AIBot;
      this.hasApi := true;
      this.bot := bot;
      this.console := n => None;
      chat := [];
      userInputQuery := "";
      nextComingQuestion := "";
      consoleReads := 0;
      botRequests := 0;
    }

    /** The constructor without an API: User mode, no chat. */
    constructor WithConsole(console: nat -> Option<string>)
      ensures mode == User && !hasApi && this.console == console
      ensures chat == [] && userInputQuery == "" && nextComingQuestion == "" && consoleReads == 0 && botRequests == 0
    {
      this.mode := User;
      this.hasApi := false;
      this.bot := log => "";
      this.console := console;
      chat := [];
      userInputQuery := "";
      nextComingQuestion := "";
      consoleReads := 0;
      botRequests := 0;
    }

    /** FlushCurrentChat (CrateNewChat): with an API, a new chat holding the introduction. */
    method FlushCurrentChat()
      modifies this
      ensures chat == (if hasApi then Introduction() else old(chat))
      ensures userInputQuery == old(userInputQuery) && nextComingQuestion == old(nextComingQuestion)
      ensures consoleReads == old(consoleReads) && botRequests == old(botRequests)
    {
      if hasApi {
        chat := Introduction();
      }
    }

    /** AddUserQuery: a new chat, then the user's query; a missing or empty one is read from
        the console (the end of the input leaves it empty). */
    method AddUserQuery(userQuery: Option<string>)
      modifies this
      ensures chat == (if hasApi then Introduction() else old(chat))
      ensures userQuery.Some? && userQuery.value != "" ==>
                userInputQuery == userQuery.value && consoleReads == old(consoleReads)
      ensures userQuery.None? || userQuery.value == "" ==>
                consoleReads == old(consoleReads) + 1 &&
                userInputQuery == (match console(old(consoleReads)) case Some(line) => line case None => "")
      ensures nextComingQuestion == old(nextComingQuestion) && botRequests == old(botRequests)
    {
      FlushCurrentChat();
      if userQuery.Some? && userQuery.value != "" {
        userInputQuery := userQuery.value;
      } else {
        var line := console(consoleReads);
        consoleReads := consoleReads + 1;
        userInputQuery := match line case Some(l) => l case None => "";
      }
    }

    /** InsertSystemMessage: appended to the chat in the bot modes; returns its argument. */
    method InsertSystemMessage(message: string) returns (r: string)
      modifies this
      ensures r == message
      ensures chat == (if IsBot(mode) then old(chat) + [SystemMessage(message)] else old(chat))
      ensures userInputQuery == old(userInputQuery) && nextComingQuestion == old(nextComingQuestion)
      ensures consoleReads == old(consoleReads) && botRequests == old(botRequests)
    {
      if IsBot(mode) {
        chat := chat + [SystemMessage(message)];
      }
      r := message;
    }

    /** InsertUserMessage: appended to the chat in the bot modes; returns its argument. */
    method InsertUserMessage(message: string) returns (r: string)
      modifies this
      ensures r == message
      ensures chat == (if IsBot(mode) then old(chat) + [UserMessage(message)] else old(chat))
      ensures userInputQuery == old(userInputQuery) && nextComingQuestion == old(nextComingQuestion)
      ensures consoleReads == old(consoleReads) && botRequests == old(botRequests)
    {
      if IsBot(mode) {
        chat := chat + [UserMessage(message)];
      }
      r := message;
    }

    /** CreateNextQuestion: in the bot modes the pending question becomes the question with the
        numbered choices; the choices are returned unchanged. */
    method CreateNextQuestion(question: string, possibleChoices: Option<seq<string>>) returns (r: Option<seq<string>>)
      modifies this
      ensures r == possibleChoices
      ensures nextComingQuestion == (if IsBot(mode) then QuestionText(question, possibleChoices) else old(nextComingQuestion))
      ensures chat == old(chat) && userInputQuery == old(userInputQuery)
      ensures consoleReads == old(consoleReads) && botRequests == old(botRequests)
    {
      if IsBot(mode) {
        nextComingQuestion := question + "\n";
        if possibleChoices.Some? {
          AppendChoices(possibleChoices.value);
        }
        nextComingQuestion := nextComingQuestion + "\n";
      }
      r := possibleChoices;
    }

    /** The foreach of CreateNextQuestion: one numbered line per choice. */
    method AppendChoices(choices: seq<string>)
      modifies this`nextComingQuestion
      ensures nextComingQuestion == old(nextComingQuestion) + ChoiceLines(choices)
    {
      var start, text, i := nextComingQuestion, nextComingQuestion, 0;
      while i < |choices|
        invariant 0 <= i <= |choices|
        invariant text == start + ChoiceLines(choices[..i])
      {
        var line := ChoiceLine(i, choices[i]);
        ChoiceLinesStep(choices, i);
        assert (start + ChoiceLines(choices[..i])) + line == start + (ChoiceLines(choices[..i]) + line);
        text := text + line;
        i := i + 1;
      }
      assert choices[..i] == choices;
      nextComingQuestion := text;
    }

    /** ErrorMessage: in the bot modes the message, marked as an error, goes to the chat (User
        mode prints it); returns the message. */
    method ErrorMessage(message: string) returns (r: string)
      modifies this
      ensures r == message
      ensures chat == (if IsBot(mode) then old(chat) + [UserMessage("ERROR: " + message)] else old(chat))
      ensures userInputQuery == old(userInputQuery) && nextComingQuestion == old(nextComingQuestion)
      ensures consoleReads == old(consoleReads) && botRequests == old(botRequests)
    {
      if IsBot(mode) {
        var _ := InsertUserMessage("ERROR: " + message);
      }
      r := message;
    }

    /** Indent: an empty user message in the bot modes. */
    method Indent()
      modifies this
      ensures chat == (if IsBot(mode) then old(chat) + [UserMessage("")] else old(chat))
      ensures userInputQuery == old(userInputQuery) && nextComingQuestion == old(nextComingQuestion)
      ensures consoleReads == old(consoleReads) && botRequests == old(botRequests)
    {
      if IsBot(mode) {
        chat := chat + [UserMessage("")];
      }
    }

    /** GetResponse. User mode: the next console line, or the empty text at the end of the
        input. Bot modes, with a next move from the user's tokens: the pending question and the
        echoed answer (the move itself when free text is expected, else its index) go to the
        chat and the echo is returned. Bot modes without a next move: the user's query, the
        query so far, the pending question and, unless free text is expected, the request for
        a number go to the chat, and the chatbot's reply to that chat is returned. */
    method GetResponse(querySoFar: string, nextMove: Option<string>, nextMoveIndex: int, isUserInputExpected: bool)
      returns (response: string)
      modifies this
      ensures mode == User ==>
                chat == old(chat) && consoleReads == old(consoleReads) + 1 && botRequests == old(botRequests) &&
                response == (match console(old(consoleReads)) case Some(line) => line case None => "")
      ensures IsBot(mode) && nextMove.Some? && nextMove.value != "" ==>
                response == (if isUserInputExpected then nextMove.value else IntToString(nextMoveIndex)) &&
                chat == old(chat) + [UserMessage(nextComingQuestion), UserMessage(response)] &&
                consoleReads == old(consoleReads) && botRequests == old(botRequests)
      ensures IsBot(mode) && (nextMove.None? || nextMove.value == "") ==>
                chat == old(chat) +
                        [ UserMessage("User initial input is: " + userInputQuery),
                          UserMessage("The query build so far: " + querySoFar),
                          UserMessage(nextComingQuestion) ] +
                        (if isUserInputExpected then [] else [UserMessage("Answer the apropriate number!")]) &&
                response == bot(chat) &&
                consoleReads == old(consoleReads) && botRequests == old(botRequests) + 1
      ensures userInputQuery == old(userInputQuery) && nextComingQuestion == old(nextComingQuestion)
    {
      if mode == User {
        var line := console(consoleReads);
        consoleReads := consoleReads + 1;
        if line.Some? {
          return line.value;
        }
      }
      if IsBot(mode) {
        if nextMove.None? || nextMove.value == "" {
          chat := chat + [UserMessage("User initial input is: " + userInputQuery),
                          UserMessage("The query build so far: " + querySoFar)];
          var _ := InsertUserMessage(nextComingQuestion);
          if !isUserInputExpected {
            chat := chat + [UserMessage("Answer the apropriate number!")];
          }
          response := bot(chat);
          botRequests := botRequests + 1;
        } else {
          var _ := InsertUserMessage(nextComingQuestion);
          if isUserInputExpected {
            chat := chat + [UserMessage(nextMove.value)];
            response := nextMove.value;
          } else {
            chat := chat + [UserMessage(IntToString(nextMoveIndex))];
            response := IntToString(nextMoveIndex);
          }
        }
        return response;
      }
      return "";
    }
  }
}
