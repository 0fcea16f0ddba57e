/** The query agent: PerformQuerying turns the user's dot-separated tokens into transformations,
    one round per transformation, asking the communication agent for each choice. While tokens
    remain, the answer is the token itself (or its index in the choice list); when they run out,
    the chatbot answers once, and that answer is only a suggestion, never committed. */
module Query {
  import opened Wrappers
  import opened Text
  import opened DataTypes
  import opened ListExtensions
  import opened Transformations
  import opened Communication

  /** An answer recorded by AddBotSuggestion, with whether it was free text. */
  datatype Suggestion = Suggestion(text: string, isUserInput: bool)

  /** The view model PerformQuerying fills: the last choice list offered, the committed
      transformations and every answer received. */
  datatype QueryViewModel = QueryViewModel(nextMoves: seq<string>, transformations: seq<Transformation>, suggestions: seq<Suggestion>)

  /** How one round (one pass of the outer loop) ends: break, continue, normal end, or an
      ArgumentException caught by the loop. */
  datatype RoundEnd = Stop | Skip | Done | Thrown(error: Error)

  /** The questions PerformQuerying poses before reading a token. */
  datatype Prompt = CatalogPrompt | MovesPrompt(kind: TransformationType) | ArgumentsPrompt(kind: TransformationType)
                  | FreeTextPrompt(kind: TransformationType)

  function PromptText(prompt: Prompt): string
  {
    match prompt
    case CatalogPrompt => TransformationQuestion
    case MovesPrompt(kind) => "---> " + GetNextMovesInstructions(kind)
    case ArgumentsPrompt(kind) => "---> " + GetArgumentsInstructions(kind)
    case FreeTextPrompt(kind) => GetFollowingHumanArgumentsInstructions(kind)
  }

  /** How one stage loop ends: a choice, no tokens left, or an exception. */
  datatype StageEnd = Chosen(answer: string) | Exhausted | Raised(error: Error)

  const TransformationQuestion: string := "---> Choose next transformation: "
  const NotAnIntegerMessage: string := "Invalid input, you must enter only an integer. Please try again."
  const OutOfSelectionMessage: string := "Invalid input out of range. You must choose from the selection above. Please try again."
  const EmptyAnswerMessage: string := "Invalid input: Empty message received!"
  const NonIntegerAnswerMessage: string := "Invalid input: Non-integer message received!"
  const OutOfRangeAnswerMessage: string := "Invalid input: Message out of range received!"

  /** FirstOrDefault on the token list: None stands for null. */
  function Head(items: seq<string>): (r: Option<string>)
    ensures r.Some? <==> items != []
    ensures r.Some? ==> r.value == items[0]
  {
    if items == [] then None else Some(items[0])
  }

  /** The first position of x in the list, -1 when it does not occur. */
  function Position(list: seq<string>, x: string): (r: int)
    ensures -1 <= r < |list|
  {
    if list == [] then -1
    else if list[0] == x then 0
    else
      var k := Position(list[1..], x);
      if k < 0 then -1 else k + 1
  }

  /** List.IndexOf on a list of strings: a null item is never found. */
  function IndexOfItem(list: seq<string>, item: Option<string>): (r: int)
    ensures -1 <= r < |list|
    ensures item.None? ==> r == -1
    ensures item.Some? ==> r == Position(list, item.value)
  {
    if item.None? then -1 else Position(list, item.value)
  }

  /** Position finds the first occurrence, and -1 exactly for an absent item. */
  lemma {:induction false} PositionIsFirst(list: seq<string>, x: string)
    ensures Position(list, x) == -1 <==> x !in list
    ensures Position(list, x) >= 0 ==>
              list[Position(list, x)] == x && forall j :: 0 <= j < Position(list, x) ==> list[j] != x
  {
    if list != [] && list[0] != x {
      PositionIsFirst(list[1..], x);
      assert x in list <==> x in list[1..] by {
        assert list == [list[0]] + list[1..];
      }
    }
  }

  /** Every token is a non-empty text (the tokens of a split query are). */
  predicate AllNonEmpty(items: seq<string>)
  {
    forall i :: 0 <= i < |items| ==> items[i] != ""
  }

  /** The tokens left are a suffix of the tokens given. */
  predicate IsSuffix(rest: seq<string>, items: seq<string>)
  {
    |rest| <= |items| && rest == items[|items| - |rest|..]
  }

  lemma SuffixOfSuffix(items: seq<string>, middle: seq<string>, rest: seq<string>)
    requires IsSuffix(middle, items) && IsSuffix(rest, middle)
    ensures IsSuffix(rest, items)
  {
    assert forall i :: 0 <= i < |rest| ==> rest[i] == middle[|middle| - |rest| + i];
  }

  lemma SuffixNonEmpty(items: seq<string>, rest: seq<string>)
    requires IsSuffix(rest, items)
    ensures AllNonEmpty(items) ==> AllNonEmpty(rest)
  {
    assert forall i :: 0 <= i < |rest| ==> rest[i] == items[|items| - |rest| + i];
  }

  /** The check of a stage answer: accepted when it is non-empty, an Int32 and below the size of
      the choice list (a negative number passes this check). */
  function ChoiceOf(answer: string, count: int): (r: Option<int>)
    ensures r.Some? <==> answer != "" && ParseInt(answer).Some? && ParseInt(answer).value < count
    ensures r.Some? ==> r == ParseInt(answer)
  {
    if answer != "" && ParseInt(answer).Some? && ParseInt(answer).value < count then ParseInt(answer) else None
  }

  /** The message for a rejected stage answer. (The source's fourth message is unreachable: it
      needs all three checks to pass.) */
  function RejectionMessage(answer: string): string
  {
    if answer == "" then EmptyAnswerMessage
    else if ParseInt(answer).None? then NonIntegerAnswerMessage
    else OutOfRangeAnswerMessage
  }

  /** The echo of a token in bot mode: GetResponse answers with the token's index in the
      choice list, and that index passes the stage check. It is the token's first position
      when the token is listed and -1 when it is not. */
  lemma EchoResolves(moves: seq<string>, token: string)
    requires |moves| <= Int32Max
    ensures var i := IndexOfItem(moves, Some(token));
            ChoiceOf(IntToString(i), |moves|) == Some(i) &&
            (i >= 0 <==> token in moves) &&
            (i >= 0 ==> moves[i] == token && forall j :: 0 <= j < i ==> moves[j] != token)
  {
    var i := IndexOfItem(moves, Some(token));
    PositionIsFirst(moves, token);
    ParseIntOfIntToString(i);
  }

  /** The stage answers a committed transformation of the given type is built from: the column,
      then the argument (types with arguments), then the free text (FilterBy). */
  function StageTokens(kind: TransformationType, toks: seq<string>): (r: seq<string>)
    requires kind != Empty && |toks| >= TotalStepsNeeded(kind)
    ensures |r| == 3 && r[0] == toks[0]
  {
    [toks[0], if HasArguments(kind) then toks[1] else "", if HasFollowingHumanArguments(kind) then toks[2] else ""]
  }

  /** The answers the stages give, one per stage the variant runs and "" for the others, are
      StageTokens of the tokens after the name. */
  lemma TokensOfStages(kind: TransformationType, items: seq<string>, nextMove: string, firstArgument: string,
                       secondArgument: string)
    requires kind != Empty && |items| > TotalStepsNeeded(kind)
    requires nextMove == items[1]
    requires if HasArguments(kind) then firstArgument == items[2] else firstArgument == ""
    requires if HasFollowingHumanArguments(kind) then secondArgument == items[3] else secondArgument == ""
    ensures [nextMove, firstArgument, secondArgument] == StageTokens(kind, items[1..])
  {
  }

  /** A builder name that is an integer selects the catalog entry of that index. */
  lemma BuilderAgreesWithIndex(name: string)
    requires ParseInt(name).Some? && BuilderType(name).Some?
    ensures IndexOf(BuilderType(name).value) == ParseInt(name).value
  {
    SmallIntToString();
    assert !IsDigit('E') && !IsDigit('D') && !IsDigit('S') && !IsDigit('G') && !IsDigit('F');
    assert !IsWhiteSpace('E') && !IsWhiteSpace('D') && !IsWhiteSpace('S') && !IsWhiteSpace('G') && !IsWhiteSpace('F');
    assert !IsWhiteSpace('y') && !IsWhiteSpace('n') && !IsWhiteSpace('y') && !IsWhiteSpace('p');
  }

  /** The index string and the catalog name build the same transformation. */
  lemma IndexNameBuildsSame(kind: TransformationType, args: seq<string>)
    ensures BuildTransformation(IntToString(IndexOf(kind)), args) == BuildTransformation(Name(kind), args)
  {
    BuilderTypeOfIndexString(kind);
    BuilderTypeOfName(kind);
    BuildDependsOnType(IntToString(IndexOf(kind)), Name(kind), args);
  }

  /** The stages of a variant, as PerformQuerying runs them, accept what the user spells: a
      listed column, an argument from the vocabulary and any non-empty free text build the
      transformation with exactly those parameters. */
  lemma SpelledTransformation(kind: TransformationType, schema: seq<EmptyField>, toks: seq<string>)
    requires kind != Empty && |toks| >= TotalStepsNeeded(kind)
    requires toks[0] in GetNextMoves(kind, schema)
    requires HasArguments(kind) ==> toks[1] in GetArguments(kind)
    ensures var r := BuildTransformation(Name(kind), StageTokens(kind, toks));
            r.Success? && TypeOf(r.value) == kind &&
            match r.value
            case EmptyTransformation => false
            case DropColumnTransformation(names) => names == {toks[0]} - {""}
            case SortByTransformation(column, direction) => column == toks[0] && ParseDirection(toks[1]) == Some(direction)
            case GroupByTransformation(groups, aggregation, target) =>
              target == toks[0] && ParseAggregation(toks[1]) == Some(aggregation) && groups == {""}
            case FilterByTransformation(condition) =>
              condition == FilterCondition(ParseRelation(toks[1]).value, toks[0], toks[2])
  {
    var args := StageTokens(kind, toks);
    if HasArguments(kind) {
      var i :| 0 <= i < |GetArguments(kind)| && GetArguments(kind)[i] == toks[1];
      VocabularyIsRecognised(kind, i);
    }
    BuildTransformationParameters(Name(kind), args);
    var r := BuildTransformation(Name(kind), args).value;
    if kind == DropColumns {
      var names := r.dropHeaderNames;
      assert forall a :: a in names <==> a in args && a != "";
      assert forall a :: a in args <==> a == toks[0] || a == "";
    }
  }

  /** The lists GetResponse offered a choice from: the catalog, the header names of a schema or
      an argument vocabulary. */
  ghost predicate Offered(moves: seq<string>)
  {
    moves == CatalogNames() ||
    exists kind: TransformationType, schema: seq<EmptyField> :: moves == GetNextMoves(kind, schema) || moves == GetArguments(kind)
  }

  /** What the answer to the catalog question leads to: a variant, a rejection reported with
      its message (the round is skipped), the end of the query (an empty answer or 0), or the
      exception CreateByIndex throws. */
  datatype CatalogAnswer = Picked(kind: TransformationType) | Rejected(message: string) | Quit | Unknown(error: Error)

  /** The checks of the catalog answer, in the source's order: empty, not an integer, at least
      the catalog size, 0, then CreateByIndex. A picked variant is a real one whose index is the
      answer. */
  function ReadCatalogAnswer(name: string): (r: CatalogAnswer)
    ensures r.Quit? <==> name == "" || ParseInt(name) == Some(0)
    ensures r.Rejected? <==> name != "" && (ParseInt(name).None? || ParseInt(name).value >= |Catalog|)
    ensures r.Rejected? ==> r.message == (if ParseInt(name).None? then NotAnIntegerMessage else OutOfSelectionMessage)
    ensures r.Unknown? ==> name != "" && ParseInt(name).value < 0 && r.error == ArgumentException(UnknownTransformationMessage)
    ensures r.Picked? ==> r.kind != Empty && ParseInt(name) == Some(IndexOf(r.kind))
  {
    if name == "" then Quit
    else
      match ParseInt(name)
      case None => Rejected(NotAnIntegerMessage)
      case Some(v) =>
        if v >= |Catalog| then Rejected(OutOfSelectionMessage)
        else if v == 0 then Quit
        else
          CreateByIndexCatalog(v);
          match CreateByIndex(v)
          case Failure(e) => Unknown(e)
          case Success(kind) => Picked(kind)
  }

  /** The echo of a token to the catalog question in bot mode: a catalog name other than
      "Empty" picks its variant, "Empty" ends the query, and any other token is the index -1,
      for which CreateByIndex throws; the echo is never rejected. */
  lemma EchoedCatalogAnswer(token: string)
    ensures var i := IndexOfItem(CatalogNames(), Some(token));
            var a := ReadCatalogAnswer(IntToString(i));
            (a.Quit? <==> token == Name(Empty)) &&
            (a.Unknown? <==> token !in CatalogNames()) &&
            !a.Rejected? &&
            (a.Picked? ==> Name(a.kind) == token && i == IndexOf(a.kind))
  {
    var i := IndexOfItem(CatalogNames(), Some(token));
    EchoResolves(CatalogNames(), token);
    CatalogIndexes();
    CreateByIndexCatalog(i);
  }

  /** Tokens that spell one transformation: a catalog name other than "Empty", then a listed
      column of the schema, an argument from the vocabulary (variants with arguments) and the
      free text (FilterBy). */
  predicate SpelledQuery(schema: seq<EmptyField>, toks: seq<string>)
  {
    toks != [] && Create(toks[0]).Success? && Create(toks[0]).value != Empty &&
    |toks| > TotalStepsNeeded(Create(toks[0]).value) &&
    toks[1] in GetNextMoves(Create(toks[0]).value, schema) &&
    (HasArguments(Create(toks[0]).value) ==> toks[2] in GetArguments(Create(toks[0]).value))
  }

  /** In bot mode the name token of a spelled query is echoed as the index of its variant,
      which the catalog answer picks; the stage tokens after it are then the ones the variant
      accepts. */
  lemma SpelledNamePicks(schema: seq<EmptyField>, toks: seq<string>)
    requires SpelledQuery(schema, toks)
    ensures var kind := Create(toks[0]).value;
            var answer := IntToString(IndexOfItem(CatalogNames(), Some(toks[0])));
            ReadCatalogAnswer(answer) == Picked(kind) && Name(kind) == toks[0] && answer == IntToString(IndexOf(kind)) &&
            |toks| > TotalStepsNeeded(kind) && toks[1] in GetNextMoves(kind, schema) &&
            (HasArguments(kind) ==> toks[2] in GetArguments(kind))
  {
    EchoedCatalogAnswer(toks[0]);
    CreateInvertsName(toks[0]);
  }

  /** The second stage's reading of an answer: None when it fails the stage check; otherwise
      GetArgumentAt of the index, which raises for a negative index and otherwise gives the
      vocabulary entry. */
  function ArgumentOutcome(kind: TransformationType, answer: string): (r: Option<StageEnd>)
    requires HasArguments(kind)
    ensures r.None? <==> ChoiceOf(answer, |GetArguments(kind)|).None?
    ensures r.Some? ==>
              var i := ParseInt(answer).value;
              i < |GetArguments(kind)| &&
              r.value == if i < 0 then Raised(ArgumentException(ArgumentAtMessage(i))) else Chosen(GetArguments(kind)[i])
  {
    match ChoiceOf(answer, |GetArguments(kind)|)
    case None => None
    case Some(i) =>
      match GetArgumentAt(kind, i)
      case Failure(e) => Some(Raised(e))
      case Success(a) => Some(Chosen(a))
  }

  /** The echo of a token as an argument: an entry of the vocabulary is chosen, any other
      token gives index -1, which GetArgumentAt rejects. */
  lemma EchoedArgument(kind: TransformationType, token: string)
    requires HasArguments(kind)
    ensures ArgumentOutcome(kind, IntToString(IndexOfItem(GetArguments(kind), Some(token)))) ==
              Some(if token in GetArguments(kind) then Chosen(token) else Raised(ArgumentException(ArgumentAtMessage(-1))))
  {
    EchoResolves(GetArguments(kind), token);
  }

  class QueryAgent {
    const agent: CommunicationAgent
    /** The schema the choices of the next round are built from. */
    var response: seq<EmptyField>

    /** The constructors: a communication agent (bot or console) and the initial table. */
    constructor (agent: CommunicationAgent, fields: seq<Field>)
      ensures this.agent == agent && response == Schema(fields)
    {
      this.agent := agent;
      response := Schema(fields);
    }

    /** AddUserQuery: forwarded to the communication agent (a new chat, then the query). */
    method AddUserQuery(userQuery: Option<string>)
      modifies agent
      ensures agent.chat == (if agent.hasApi then Introduction() else old(agent.chat))
      ensures userQuery.Some? && userQuery.value != "" ==> agent.userInputQuery == userQuery.value
      ensures agent.botRequests == old(agent.botRequests)
    {
      agent.AddUserQuery(userQuery);
    }

    /** StartNewQueryAttempt: a new chat. */
    method StartNewQueryAttempt()
      modifies agent
      ensures agent.chat == (if agent.hasApi then Introduction() else old(agent.chat))
      ensures agent.userInputQuery == old(agent.userInputQuery) && agent.botRequests == old(agent.botRequests)
    {
      agent.FlushCurrentChat();
    }

    /** CreateNextQuestion seen from the stages: the question is the text of the prompt, the
        choices come back unchanged, and the chat and the request count are untouched. */
    method Pose(prompt: Prompt, choices: Option<seq<string>>) returns (r: Option<seq<string>>)
      modifies agent
      ensures r == choices
      ensures agent.chat == old(agent.chat) && agent.botRequests == old(agent.botRequests)
      ensures agent.userInputQuery == old(agent.userInputQuery)
    {
      r := agent.CreateNextQuestion(PromptText(prompt), choices);
    }

    /** One attempt of a stage: the previous token is consumed and the next one (null when none
        is left) is offered to GetResponse with its index in the choice list. */
    method Ask(querySoFar: string, items: seq<string>, moves: seq<string>, freeText: bool) returns (rest: seq<string>, answer: string)
      requires items != []
      modifies agent
      ensures rest == items[1..]
      ensures old(agent.chat) <= agent.chat
      ensures IsBot(agent.mode) && rest != [] && rest[0] != "" ==>
                answer == (if freeText then rest[0] else IntToString(IndexOfItem(moves, Some(rest[0]))))
      ensures agent.botRequests == old(agent.botRequests) + (if IsBot(agent.mode) && (rest == [] || rest[0] == "") then 1 else 0)
    {
      rest := items[1..];
      var next := Head(rest);
      var index := IndexOfItem(moves, next);
      answer := agent.GetResponse(querySoFar, next, index, freeText);
    }

    /** The common part of a stage attempt over a choice list: the next token is offered, the
        answer is recorded and checked, and a failing answer is reported. In bot mode the answer
        is the token's index, which passes the check and denotes the token when it is listed. */
    method Answer(querySoFar: string, items: seq<string>, choices: seq<string>, view: QueryViewModel)
      returns (rest: seq<string>, view': QueryViewModel, answer: string, choice: Option<int>)
      requires items != []
      modifies agent
      ensures rest == items[1..]
      ensures view' == view.(nextMoves := choices, suggestions := view.suggestions + [Suggestion(answer, false)])
      ensures choice == ChoiceOf(answer, |choices|)
      ensures old(agent.chat) <= agent.chat
      ensures agent.botRequests == old(agent.botRequests) + (if IsBot(agent.mode) && (rest == [] || rest[0] == "") then 1 else 0)
      ensures IsBot(agent.mode) && rest != [] && rest[0] != "" && |choices| <= Int32Max ==>
                answer == IntToString(IndexOfItem(choices, Some(rest[0]))) &&
                choice.Some? && -1 <= choice.value < |choices| &&
                (choice.value >= 0 <==> rest[0] in choices) && (choice.value >= 0 ==> choices[choice.value] == rest[0])
    {
      rest, answer := Ask(querySoFar, items, choices, false);
      view' := view.(nextMoves := choices, suggestions := view.suggestions + [Suggestion(answer, false)]);
      if IsBot(agent.mode) && rest != [] && rest[0] != "" && |choices| <= Int32Max {
        EchoResolves(choices, rest[0]);
      }
      choice := ChoiceOf(answer, |choices|);
      if choice.None? {
        var _ := agent.ErrorMessage(RejectionMessage(answer));
        agent.Indent();
      }
    }

    /** One attempt of the first stage: the question with the header names, then the answer.
        An answer failing the stage check is reported and gives None (the stage asks again); a
        passing negative index raises (ElementAt), any other passing index picks that column. */
    method ColumnAttempt(querySoFar: string, kind: TransformationType, items: seq<string>, view: QueryViewModel)
      returns (outcome: Option<StageEnd>, rest: seq<string>, view': QueryViewModel, answer: string)
      requires items != []
      modifies agent
      ensures rest == items[1..]
      ensures view'.suggestions == view.suggestions + [Suggestion(answer, false)]
      ensures var moves := GetNextMoves(kind, response);
              var choice := ChoiceOf(answer, |moves|);
              outcome == if choice.None? then None
                         else if choice.value < 0 then Some(Raised(ArgumentException(IndexOutOfRangeMessage)))
                         else Some(Chosen(moves[choice.value]))
      ensures outcome.Some? && outcome.value.Chosen? ==> outcome.value.answer in GetNextMoves(kind, response)
      ensures view'.transformations == view.transformations && view'.nextMoves == GetNextMoves(kind, response)
      ensures old(agent.chat) <= agent.chat
      ensures agent.botRequests == old(agent.botRequests) + (if IsBot(agent.mode) && (rest == [] || rest[0] == "") then 1 else 0)
      ensures IsBot(agent.mode) && rest != [] && rest[0] != "" && |response| <= Int32Max ==>
                outcome == Some(if rest[0] in GetNextMoves(kind, response) then Chosen(rest[0])
                                else Raised(ArgumentException(IndexOutOfRangeMessage)))
    {
      var moves := GetNextMoves(kind, response);
      var shown := Pose(MovesPrompt(kind), Some(moves));
      var choice;
      rest, view', answer, choice := Answer(querySoFar, items, shown.value, view);
      if choice.None? {
        return None, rest, view', answer;
      }
      if choice.value < 0 {
        // ElementAt on a negative index
        return Some(Raised(ArgumentException(IndexOutOfRangeMessage))), rest, view', answer;
      }
      outcome := Some(Chosen(moves[choice.value]));
    }

    /** The first stage: the column, asked again (with the same list) until an answer passes
        the stage check. Every answer but the last is rejected, and the last one decides. In
        bot mode the next token decides at once: a listed column is chosen, any other raises. */
    method ColumnStage(querySoFar: string, kind: TransformationType, items: seq<string>, view: QueryViewModel)
      returns (end: StageEnd, rest: seq<string>, view': QueryViewModel, steps: nat)
      modifies agent
      ensures steps <= |items| && rest == items[steps..] && (steps == 0 <==> items == [])
      ensures end.Exhausted? ==> rest == []
      ensures AllNonEmpty(items) ==> AllNonEmpty(rest)
      ensures end.Raised? ==> end.error == ArgumentException(IndexOutOfRangeMessage)
      ensures end.Chosen? ==> end.answer in GetNextMoves(kind, response)
      ensures view'.transformations == view.transformations
      ensures view'.nextMoves == (if steps == 0 then view.nextMoves else GetNextMoves(kind, response))
      ensures old(agent.chat) <= agent.chat
      ensures AllNonEmpty(items) ==>
                agent.botRequests == old(agent.botRequests) + (if IsBot(agent.mode) && steps > 0 && rest == [] then 1 else 0)
      ensures IsBot(agent.mode) && AllNonEmpty(items) && |items| >= 2 && |response| <= Int32Max ==>
                steps == 1 &&
                end == if items[1] in GetNextMoves(kind, response) then Chosen(items[1])
                       else Raised(ArgumentException(IndexOutOfRangeMessage))
    {
      ghost var bot := IsBot(agent.mode) && AllNonEmpty(items) && |items| >= 2 && |response| <= Int32Max;
      rest, view', steps := items, view, 0;
      while rest != []
        invariant steps <= |items| && rest == items[steps..] && (steps == 0 ==> rest == items)
        invariant bot ==> steps == 0
        invariant view'.transformations == view.transformations
        invariant view'.nextMoves == (if steps == 0 then view.nextMoves else GetNextMoves(kind, response))
        invariant old(agent.chat) <= agent.chat
        invariant AllNonEmpty(items) ==>
                    agent.botRequests == old(agent.botRequests) + (if IsBot(agent.mode) && steps > 0 && rest == [] then 1 else 0)
        decreases |rest|
      {
        var outcome, answer;
        outcome, rest, view', answer := ColumnAttempt(querySoFar, kind, rest, view');
        steps := steps + 1;
        assert AllNonEmpty(items) && rest != [] ==> rest[0] != "";
        assert steps == 1 && rest != [] ==> rest[0] == items[1];
        if outcome.Some? {
          return outcome.value, rest, view', steps;
        }
      }
      end := Exhausted;
    }

    /** One attempt of the second stage: the answer checked against the argument vocabulary
        (ArgumentOutcome); a rejected answer is reported and the stage asks again. */
    method ArgumentAttempt(querySoFar: string, kind: TransformationType, items: seq<string>, view: QueryViewModel)
      returns (outcome: Option<StageEnd>, rest: seq<string>, view': QueryViewModel, answer: string)
      requires items != [] && HasArguments(kind)
      modifies agent
      ensures rest == items[1..]
      ensures view'.suggestions == view.suggestions + [Suggestion(answer, false)]
      ensures outcome == ArgumentOutcome(kind, answer)
      ensures view'.transformations == view.transformations && view'.nextMoves == GetArguments(kind)
      ensures old(agent.chat) <= agent.chat
      ensures agent.botRequests == old(agent.botRequests) + (if IsBot(agent.mode) && (rest == [] || rest[0] == "") then 1 else 0)
      ensures IsBot(agent.mode) && rest != [] && rest[0] != "" ==>
                answer == IntToString(IndexOfItem(GetArguments(kind), Some(rest[0])))
    {
      var choice;
      rest, view', answer, choice := Answer(querySoFar, items, GetArguments(kind), view);
      outcome := ArgumentOutcome(kind, answer);
    }

    /** The second stage (variants with arguments): the question with the vocabulary, then the
        argument, asked again until an answer passes the stage check. Every answer but the last
        is rejected. In bot mode the next token decides at once: an entry of the vocabulary is
        chosen, any other raises (GetArgumentAt of -1). */
    method ArgumentStage(querySoFar: string, kind: TransformationType, items: seq<string>, view: QueryViewModel)
      returns (end: StageEnd, rest: seq<string>, view': QueryViewModel, steps: nat)
      requires HasArguments(kind)
      modifies agent
      ensures steps <= |items| && rest == items[steps..] && (steps == 0 <==> items == [])
      ensures end.Exhausted? ==> rest == []
      ensures end.Raised? ==> end.error.ArgumentException?
      ensures end.Chosen? ==> end.answer in GetArguments(kind)
      ensures view'.transformations == view.transformations
      ensures view'.nextMoves == (if steps == 0 then view.nextMoves else GetArguments(kind))
      ensures old(agent.chat) <= agent.chat
      ensures AllNonEmpty(items) ==>
                agent.botRequests == old(agent.botRequests) + (if IsBot(agent.mode) && steps > 0 && rest == [] then 1 else 0)
      ensures IsBot(agent.mode) && AllNonEmpty(items) && |items| >= 2 ==>
                steps == 1 &&
                end == if items[1] in GetArguments(kind) then Chosen(items[1])
                       else Raised(ArgumentException(ArgumentAtMessage(-1)))
    {
      ghost var bot := IsBot(agent.mode) && AllNonEmpty(items) && |items| >= 2;
      var _ := Pose(ArgumentsPrompt(kind), Some(GetArguments(kind)));
      rest, view', steps := items, view, 0;
      while rest != []
        invariant steps <= |items| && rest == items[steps..] && (steps == 0 ==> rest == items)
        invariant bot ==> steps == 0
        invariant view'.transformations == view.transformations
        invariant view'.nextMoves == (if steps == 0 then view.nextMoves else GetArguments(kind))
        invariant old(agent.chat) <= agent.chat
        invariant AllNonEmpty(items) ==>
                    agent.botRequests == old(agent.botRequests) + (if IsBot(agent.mode) && steps > 0 && rest == [] then 1 else 0)
        decreases |rest|
      {
        var outcome, answer;
        outcome, rest, view', answer := ArgumentAttempt(querySoFar, kind, rest, view');
        steps := steps + 1;
        if bot {
          EchoedArgument(kind, items[1]);
        }
        assert AllNonEmpty(items) && rest != [] ==> rest[0] != "";
        assert steps == 1 && rest != [] ==> rest[0] == items[1];
        if outcome.Some? {
          return outcome.value, rest, view', steps;
        }
      }
      end := Exhausted;
    }

    /** One attempt of the third stage: the answer, accepted exactly when it is not empty (an
        empty answer is reported and the stage asks again). */
    method FreeTextAttempt(querySoFar: string, items: seq<string>, view: QueryViewModel)
      returns (outcome: Option<string>, rest: seq<string>, view': QueryViewModel, answer: string)
      requires items != []
      modifies agent
      ensures rest == items[1..]
      ensures view'.suggestions == view.suggestions + [Suggestion(answer, true)]
      ensures outcome == if answer == "" then None else Some(answer)
      ensures view'.transformations == view.transformations && view'.nextMoves == view.nextMoves
      ensures old(agent.chat) <= agent.chat
      ensures agent.botRequests == old(agent.botRequests) + (if IsBot(agent.mode) && (rest == [] || rest[0] == "") then 1 else 0)
      ensures IsBot(agent.mode) && rest != [] && rest[0] != "" ==> outcome == Some(rest[0])
    {
      rest, answer := Ask(querySoFar, items, view.nextMoves, true);
      view' := view.(suggestions := view.suggestions + [Suggestion(answer, true)]);
      if answer != "" {
        return Some(answer), rest, view', answer;
      }
      var _ := agent.ErrorMessage(EmptyAnswerMessage);
      agent.Indent();
      outcome := None;
    }

    /** The third stage (FilterBy): free text, asked again until an answer is not empty. Every
        answer but the last is empty; in bot mode the next token is the answer. */
    method FreeTextStage(querySoFar: string, kind: TransformationType, items: seq<string>, view: QueryViewModel)
      returns (end: StageEnd, rest: seq<string>, view': QueryViewModel, steps: nat)
      modifies agent
      ensures steps <= |items| && rest == items[steps..] && (steps == 0 <==> items == [])
      ensures end.Exhausted? ==> rest == []
      ensures !end.Raised?
      ensures end.Chosen? ==> end.answer != ""
      ensures view'.transformations == view.transformations && view'.nextMoves == view.nextMoves
      ensures old(agent.chat) <= agent.chat
      ensures AllNonEmpty(items) ==>
                agent.botRequests == old(agent.botRequests) + (if IsBot(agent.mode) && steps > 0 && rest == [] then 1 else 0)
      ensures IsBot(agent.mode) && AllNonEmpty(items) && |items| >= 2 ==> steps == 1 && end == Chosen(items[1])
    {
      ghost var bot := IsBot(agent.mode) && AllNonEmpty(items) && |items| >= 2;
      var _ := Pose(FreeTextPrompt(kind), None);
      rest, view', steps := items, view, 0;
      while rest != []
        invariant steps <= |items| && rest == items[steps..] && (steps == 0 ==> rest == items)
        invariant bot ==> steps == 0
        invariant view'.transformations == view.transformations && view'.nextMoves == view.nextMoves
        invariant old(agent.chat) <= agent.chat
        invariant AllNonEmpty(items) ==>
                    agent.botRequests == old(agent.botRequests) + (if IsBot(agent.mode) && steps > 0 && rest == [] then 1 else 0)
        decreases |rest|
      {
        var outcome, answer;
        outcome, rest, view', answer := FreeTextAttempt(querySoFar, rest, view');
        steps := steps + 1;
        assert AllNonEmpty(items) && rest != [] ==> rest[0] != "";
        assert steps == 1 && rest != [] ==> rest[0] == items[1];
        if outcome.Some? {
          return Chosen(outcome.value), rest, view', steps;
        }
      }
      end := Exhausted;
    }

    /** The first step of a round: the catalog question and the answer naming the
        transformation. The answer is read by ReadCatalogAnswer: a quit ends the query, a
        rejection skips the round, an unknown index throws, and a picked variant is chosen
        together with the answer's text. */
    method ChooseTransformation(querySoFar: string, items: seq<string>, first: bool, view: QueryViewModel)
      returns (chosen: Option<(TransformationType, string)>, end: RoundEnd, rest: seq<string>, view': QueryViewModel,
               answer: string)
      requires first || items != []
      modifies agent
      ensures rest == (if first then items else items[1..])
      ensures view' == view.(nextMoves := CatalogNames(), suggestions := view.suggestions + [Suggestion(answer, false)])
      ensures end == match ReadCatalogAnswer(answer)
                     case Quit => Stop
                     case Rejected(_) => Skip
                     case Unknown(e) => Thrown(e)
                     case Picked(_) => Done
      ensures chosen == if ReadCatalogAnswer(answer).Picked? then Some((ReadCatalogAnswer(answer).kind, answer)) else None
      ensures old(agent.chat) <= agent.chat
      ensures agent.botRequests == old(agent.botRequests) + (if IsBot(agent.mode) && (rest == [] || rest[0] == "") then 1 else 0)
      ensures IsBot(agent.mode) && rest != [] && rest[0] != "" ==>
                answer == IntToString(IndexOfItem(CatalogNames(), Some(rest[0])))
    {
      end := Done;
      var shown := Pose(CatalogPrompt, Some(CatalogNames()));
      rest := if first then items else items[1..];
      view' := view.(nextMoves := shown.value);
      var next := Head(rest);
      var index := IndexOfItem(view'.nextMoves, next);
      answer := agent.GetResponse(querySoFar, next, index, false);
      view' := view'.(suggestions := view'.suggestions + [Suggestion(answer, false)]);
      var reading := ReadCatalogAnswer(answer);
      if reading.Rejected? {
        var _ := agent.ErrorMessage(reading.message);
        agent.Indent();
        return None, Skip, rest, view', answer;
      }
      if reading.Quit? {
        return None, Stop, rest, view', answer;
      }
      if reading.Unknown? {
        return None, Thrown(reading.error), rest, view', answer;
      }
      chosen := Some((reading.kind, answer));
    }

    /** The stages of a round after the transformation is named: the column stage, then,
        while tokens remain, the argument stage (variants with arguments) and the free-text
        stage (FilterBy). Yields the three answers (empty when a stage does not choose), the
        attempts made, and the exception a stage raised, if any. */
    method RunStages(querySoFar: string, kind: TransformationType, items: seq<string>, view: QueryViewModel)
      returns (raised: Option<Error>, rest: seq<string>, view': QueryViewModel, args: seq<string>, steps: nat)
      requires kind != Empty
      modifies agent
      ensures steps <= |items| && rest == items[steps..]
      ensures raised.Some? ==> raised.value.ArgumentException?
      ensures |args| == 3
      ensures view'.transformations == view.transformations
      ensures view'.nextMoves == view.nextMoves || view'.nextMoves == GetNextMoves(kind, response) ||
              view'.nextMoves == GetArguments(kind)
      ensures old(agent.chat) <= agent.chat
      ensures AllNonEmpty(items) ==>
                agent.botRequests == old(agent.botRequests) + (if IsBot(agent.mode) && steps > 0 && rest == [] then 1 else 0)
      ensures raised.None? && rest != [] ==> steps >= TotalStepsNeeded(kind)
      ensures raised.None? && rest != [] && steps == TotalStepsNeeded(kind) && IsBot(agent.mode) && AllNonEmpty(items) &&
              |response| <= Int32Max ==>
                args == StageTokens(kind, items[1..])
      ensures IsBot(agent.mode) && AllNonEmpty(items) && |response| <= Int32Max && |items| > TotalStepsNeeded(kind) &&
              items[1] in GetNextMoves(kind, response) && (HasArguments(kind) ==> items[2] in GetArguments(kind)) ==>
                raised.None? && steps == TotalStepsNeeded(kind)
    {
      raised := None;
      var nextMove, firstArgument, secondArgument := "", "", "";
      var stage, s1 := Exhausted, 0;
      stage, rest, view', s1 := ColumnStage(querySoFar, kind, items, view);
      if stage.Raised? {
        return Some(stage.error), rest, view', [nextMove, firstArgument, secondArgument], s1;
      }
      ghost var column, afterColumn := stage, rest;
      if stage.Chosen? {
        nextMove := stage.answer;
      }
      var s2;
      raised, rest, view', firstArgument, secondArgument, s2 := LaterStages(querySoFar, kind, rest, view');
      assert items[s1..][s2..] == items[s1 + s2..];
      args, steps := [nextMove, firstArgument, secondArgument], s1 + s2;
      StepsAreStages(kind);
      if raised.None? && rest != [] && steps == TotalStepsNeeded(kind) && IsBot(agent.mode) && AllNonEmpty(items) &&
         |response| <= Int32Max {
        assert AllNonEmpty(afterColumn);
        assert s1 == 1 && column.Chosen?;
        assert nextMove == items[1];
        assert HasArguments(kind) ==> afterColumn[1] == items[2];
        assert HasFollowingHumanArguments(kind) ==> afterColumn[2] == items[3];
        TokensOfStages(kind, items, nextMove, firstArgument, secondArgument);
      }
    }

    /** The stages after the column stage, for variants with arguments and while tokens
        remain: the argument stage, then, while tokens remain, the free-text stage (FilterBy).
        Yields the two answers ("" when a stage does not choose), the attempts made and the
        exception the argument stage raised, if any. */
    method LaterStages(querySoFar: string, kind: TransformationType, items: seq<string>, view: QueryViewModel)
      returns (raised: Option<Error>, rest: seq<string>, view': QueryViewModel, firstArgument: string,
               secondArgument: string, steps: nat)
      modifies agent
      ensures steps <= |items| && rest == items[steps..] && (steps == 0 <==> items == [] || !HasArguments(kind))
      ensures steps == 0 ==> raised.None?
      ensures raised.Some? ==> raised.value.ArgumentException?
      ensures view'.transformations == view.transformations
      ensures view'.nextMoves == (if steps == 0 then view.nextMoves else GetArguments(kind))
      ensures old(agent.chat) <= agent.chat
      ensures AllNonEmpty(items) ==>
                agent.botRequests == old(agent.botRequests) + (if IsBot(agent.mode) && steps > 0 && rest == [] then 1 else 0)
      ensures !HasArguments(kind) ==> firstArgument == ""
      ensures !HasFollowingHumanArguments(kind) ==> secondArgument == ""
      ensures raised.None? && rest != [] ==>
                steps >= (if HasArguments(kind) then 1 else 0) + (if HasFollowingHumanArguments(kind) then 1 else 0)
      ensures raised.None? && rest != [] &&
              steps == (if HasArguments(kind) then 1 else 0) + (if HasFollowingHumanArguments(kind) then 1 else 0) &&
              IsBot(agent.mode) && AllNonEmpty(items) ==>
                (HasArguments(kind) ==> firstArgument == items[1]) &&
                (HasFollowingHumanArguments(kind) ==> secondArgument == items[2])
      ensures IsBot(agent.mode) && AllNonEmpty(items) && HasArguments(kind) &&
              |items| > 1 + (if HasFollowingHumanArguments(kind) then 1 else 0) && items[1] in GetArguments(kind) ==>
                raised.None? && steps == 1 + (if HasFollowingHumanArguments(kind) then 1 else 0)
    {
      raised, rest, view', firstArgument, secondArgument, steps := None, items, view, "", "", 0;
      if !HasArguments(kind) || items == [] {
        return;
      }
      var stage, s3;
      stage, rest, view', steps := ArgumentStage(querySoFar, kind, items, view);
      if stage.Raised? {
        return Some(stage.error), rest, view', firstArgument, secondArgument, steps;
      }
      ghost var argument, afterArgument := stage, rest;
      if stage.Chosen? {
        firstArgument := stage.answer;
      }
      if HasFollowingHumanArguments(kind) && rest != [] {
        stage, rest, view', s3 := FreeTextStage(querySoFar, kind, rest, view');
        assert items[steps..][s3..] == items[steps + s3..];
        if stage.Chosen? {
          secondArgument := stage.answer;
        }
        steps := steps + s3;
        if rest != [] && s3 == 1 && IsBot(agent.mode) && AllNonEmpty(items) {
          assert AllNonEmpty(afterArgument);
        }
      }
    }

    /** One round: the try block of PerformQuerying's outer loop. After the transformation is
        named the stages run; when the attempts made equal the variant's TotalStepsNeeded the
        transformation is built, committed only if a token is still left (its last answer was
        not the chatbot's), and the schema is updated by Preprocess either way. In bot mode a
        query that spells a transformation commits exactly that transformation. */
    method Round(querySoFar: string, items: seq<string>, first: bool, view: QueryViewModel)
      returns (end: RoundEnd, rest: seq<string>, view': QueryViewModel, ghost built: Option<Transformation>,
               ghost committed: bool, ghost catalogAnswer: string)
      requires first || items != []
      modifies this, agent
      ensures IsSuffix(rest, items) && (!first ==> |rest| < |items|)
      ensures end.Thrown? ==> end.error.ArgumentException?
      ensures end.Stop? <==> ReadCatalogAnswer(catalogAnswer).Quit?
      ensures end.Skip? <==> ReadCatalogAnswer(catalogAnswer).Rejected?
      ensures end.Stop? || end.Skip? ==>
                view' == view.(nextMoves := CatalogNames(), suggestions := view.suggestions + [Suggestion(catalogAnswer, false)]) &&
                response == old(response)
      ensures IsBot(agent.mode) && (if first then 0 else 1) < |items| && items[if first then 0 else 1] != "" ==>
                catalogAnswer == IntToString(IndexOfItem(CatalogNames(), Some(items[if first then 0 else 1])))
      ensures old(agent.chat) <= agent.chat
      ensures AllNonEmpty(items) ==>
                agent.botRequests <= old(agent.botRequests) + 1 &&
                (agent.botRequests == old(agent.botRequests) + 1 ==> rest == [])
      ensures Offered(view'.nextMoves)
      ensures committed <==> built.Some? && rest != []
      ensures view'.transformations == view.transformations + (if committed then [built.value] else [])
      ensures built.Some? ==> TypeOf(built.value) != Empty
      ensures built.None? ==> response == old(response)
      ensures built.Some? ==>
                if end.Done? then Preprocess(built.value, old(response)) == Success(response)
                else end.Thrown? && response == old(response)
      ensures committed && IsBot(agent.mode) && AllNonEmpty(items) && |old(response)| <= Int32Max ==>
                var o := if first then 0 else 1;
                var kind := TypeOf(built.value);
                o + TotalStepsNeeded(kind) < |items| && items[o] == Name(kind) &&
                BuildTransformation(Name(kind), StageTokens(kind, items[o + 1..])) == Success(built.value)
      ensures IsBot(agent.mode) && AllNonEmpty(items) && |old(response)| <= Int32Max &&
              SpelledQuery(old(response), items[if first then 0 else 1..]) ==>
                var o := if first then 0 else 1;
                committed &&
                BuildTransformation(items[o], StageTokens(Create(items[o]).value, items[o + 1..])) == Success(built.value)
    {
      built, committed := None, false;
      var chosen, answer;
      chosen, end, rest, view', answer := ChooseTransformation(querySoFar, items, first, view);
      catalogAnswer := answer;
      ghost var afterName := rest;
      ghost var o := if first then 0 else 1;
      if IsBot(agent.mode) && AllNonEmpty(items) && |old(response)| <= Int32Max && SpelledQuery(old(response), afterName) {
        SpelledNamePicks(old(response), afterName);
      }
      if chosen.None? {
        return;
      }
      var (kind, name) := chosen.value;
      end, rest, view', built, committed := Proceed(querySoFar, kind, name, rest, view');
      SuffixOfSuffix(items, afterName, rest);
      if committed && IsBot(agent.mode) && AllNonEmpty(items) {
        SuffixNonEmpty(items, afterName);
        EchoedCatalogAnswer(afterName[0]);
      }
      if IsBot(agent.mode) && AllNonEmpty(items) && afterName != [] {
        assert afterName[0] == items[o] && afterName[1..] == items[o + 1..];
        SuffixNonEmpty(items, afterName);
      }
    }

    /** The rest of a round once the transformation is named: the stages, then Complete with
        the answers they gave. In bot mode, tokens that spell a listed column and an argument
        from the vocabulary commit the transformation those tokens build. */
    method Proceed(querySoFar: string, kind: TransformationType, name: string, items: seq<string>, view: QueryViewModel)
      returns (end: RoundEnd, rest: seq<string>, view': QueryViewModel, ghost built: Option<Transformation>,
               ghost committed: bool)
      requires kind != Empty && ParseInt(name) == Some(IndexOf(kind))
      modifies this, agent
      ensures IsSuffix(rest, items)
      ensures end.Done? || end.Thrown?
      ensures end.Thrown? ==> end.error.ArgumentException?
      ensures old(agent.chat) <= agent.chat
      ensures AllNonEmpty(items) ==>
                agent.botRequests <= old(agent.botRequests) + 1 &&
                (agent.botRequests == old(agent.botRequests) + 1 ==> rest == [] && items != [])
      ensures view'.nextMoves == view.nextMoves || view'.nextMoves == GetNextMoves(kind, old(response)) ||
              view'.nextMoves == GetArguments(kind)
      ensures committed <==> built.Some? && rest != []
      ensures view'.transformations == view.transformations + (if committed then [built.value] else [])
      ensures built.Some? ==> TypeOf(built.value) == kind
      ensures built.None? ==> response == old(response)
      ensures built.Some? ==>
                if end.Done? then Preprocess(built.value, old(response)) == Success(response)
                else end.Thrown? && response == old(response)
      ensures committed && IsBot(agent.mode) && AllNonEmpty(items) && |old(response)| <= Int32Max &&
              name == IntToString(IndexOf(kind)) ==>
                TotalStepsNeeded(kind) < |items| &&
                BuildTransformation(Name(kind), StageTokens(kind, items[1..])) == Success(built.value)
      ensures IsBot(agent.mode) && AllNonEmpty(items) && |old(response)| <= Int32Max &&
              name == IntToString(IndexOf(kind)) && TotalStepsNeeded(kind) < |items| &&
              items[1] in GetNextMoves(kind, old(response)) && (HasArguments(kind) ==> items[2] in GetArguments(kind)) ==>
                committed && BuildTransformation(Name(kind), StageTokens(kind, items[1..])) == Success(built.value)
    {
      built, committed := None, false;
      var raised, args, steps;
      raised, rest, view', args, steps := RunStages(querySoFar, kind, items, view);
      if raised.Some? {
        return Thrown(raised.value), rest, view', built, committed;
      }
      if IsBot(agent.mode) && AllNonEmpty(items) && |response| <= Int32Max && name == IntToString(IndexOf(kind)) {
        IndexNameBuildsSame(kind, args);
        if steps == TotalStepsNeeded(kind) && rest != [] && items[1] in GetNextMoves(kind, response) &&
           (HasArguments(kind) ==> items[2] in GetArguments(kind)) {
          SpelledTransformation(kind, response, items[1..]);
        }
      }
      end, view', built, committed := Complete(kind, name, args, steps, rest, view');
    }

    /** The end of a round once every stage has answered: with all the steps taken the
        transformation is built from the chosen index and the arguments, kept when tokens
        remain, and the schema is preprocessed through it; a build that fails throws, and
        fewer steps leave everything as it was. */
    method Complete(kind: TransformationType, name: string, args: seq<string>, steps: nat, rest: seq<string>,
                    view: QueryViewModel)
      returns (end: RoundEnd, view': QueryViewModel, built: Option<Transformation>, committed: bool)
      requires kind != Empty && ParseInt(name) == Some(IndexOf(kind))
      modifies this
      ensures !end.Skip? && !end.Stop?
      ensures end.Thrown? ==> end.error.ArgumentException?
      ensures view'.nextMoves == view.nextMoves
      ensures committed <==> built.Some? && rest != []
      ensures view'.transformations == view.transformations + (if committed then [built.value] else [])
      ensures steps == TotalStepsNeeded(kind) && BuildTransformation(name, args).Success? ==>
                built == Some(BuildTransformation(name, args).value) && TypeOf(built.value) == kind
      ensures steps == TotalStepsNeeded(kind) && BuildTransformation(name, args).Failure? ==>
                built.None? && end == Thrown(BuildTransformation(name, args).error)
      ensures steps != TotalStepsNeeded(kind) ==> built.None? && end.Done? && view' == view
      ensures built.None? ==> response == old(response)
      ensures built.Some? ==>
                if end.Done? then Preprocess(built.value, old(response)) == Success(response)
                else Preprocess(built.value, old(response)).Failure? &&
                     end == Thrown(Preprocess(built.value, old(response)).error) && response == old(response)
    {
      end, view', built, committed := Done, view, None, false;
      if steps == TotalStepsNeeded(kind) {
        var b := BuildTransformation(name, args);
        if b.Failure? {
          return Thrown(b.error), view', built, committed;
        }
        BuilderAgreesWithIndex(name);
        CatalogIndexes();
        built := Some(b.value);
        if rest != [] {
          view' := view'.(transformations := view'.transformations + [b.value]);
          committed := true;
        }
        var p := Preprocess(b.value, response);
        if p.Failure? {
          return Thrown(p.error), view', built, committed;
        }
        response := p.value;
      }
    }

    /** One pass of PerformQuerying's outer loop: a round whose ArgumentException is caught and
        reported with ". Please try again.", then a blank line unless the round was skipped.
        The pass stops the loop exactly when the catalog answer was a quit, and then that
        answer is the last one recorded. */
    method CaughtRound(querySoFar: string, items: seq<string>, first: bool, view: QueryViewModel)
      returns (stop: bool, rest: seq<string>, view': QueryViewModel, ghost catalogAnswer: string)
      requires first || items != []
      modifies this, agent
      ensures IsSuffix(rest, items) && (!first ==> |rest| < |items|)
      ensures stop <==> ReadCatalogAnswer(catalogAnswer).Quit?
      ensures stop ==> view'.suggestions == view.suggestions + [Suggestion(catalogAnswer, false)]
      ensures Offered(view'.nextMoves)
      ensures old(agent.chat) <= agent.chat
      ensures view.transformations <= view'.transformations
      ensures (forall t :: t in view.transformations ==> TypeOf(t) != Empty) ==>
                forall t :: t in view'.transformations ==> TypeOf(t) != Empty
      ensures AllNonEmpty(items) ==>
                agent.botRequests <= old(agent.botRequests) + 1 &&
                (agent.botRequests == old(agent.botRequests) + 1 ==> rest == [])
      ensures first && IsBot(agent.mode) && AllNonEmpty(items) && |old(response)| <= Int32Max &&
              SpelledQuery(old(response), items) ==>
                |view'.transformations| == |view.transformations| + 1 &&
                BuildTransformation(items[0], StageTokens(Create(items[0]).value, items[1..])) ==
                Success(view'.transformations[|view.transformations|])
    {
      var end;
      ghost var built, committed;
      end, rest, view', built, committed, catalogAnswer := Round(querySoFar, items, first, view);
      stop := end.Stop?;
      if stop {
        return;
      }
      if end.Thrown? {
        var _ := agent.ErrorMessage(end.error.message + ". Please try again.");
        agent.Indent();
      }
      if !end.Skip? {
        agent.Indent();
      }
    }

    /** PerformQuerying: a new chat, then one round per transformation until the tokens run
        out or a round breaks; a caught ArgumentException is reported with ". Please try
        again." and the loop goes on. With non-empty tokens the chatbot is asked at most once
        per call; every committed transformation is a real one (never Empty); the chat keeps
        the introduction it was started with; the last choice list is one that was offered.
        Tokens are left over only after a quit answer, which is then the last answer recorded.
        In bot mode a query that starts by spelling a transformation commits it first. */
    method PerformQuerying(queryItems: seq<string>, fields: seq<Field>) returns (view: QueryViewModel, ghost left: seq<string>)
      modifies this, agent
      ensures AllNonEmpty(queryItems) ==> agent.botRequests <= old(agent.botRequests) + 1
      ensures agent.hasApi ==> Introduction() <= agent.chat
      ensures forall t :: t in view.transformations ==> TypeOf(t) != Empty
      ensures Offered(view.nextMoves)
      ensures IsSuffix(left, queryItems)
      ensures left != [] ==>
                view.suggestions != [] && ReadCatalogAnswer(view.suggestions[|view.suggestions| - 1].text).Quit?
      ensures IsBot(agent.mode) && AllNonEmpty(queryItems) && |Schema(fields)| <= Int32Max &&
              SpelledQuery(Schema(fields), queryItems) ==>
                view.transformations != [] &&
                BuildTransformation(queryItems[0], StageTokens(Create(queryItems[0]).value, queryItems[1..])) ==
                Success(view.transformations[0])
    {
      response := Schema(fields);
      view := QueryViewModel([], [], []);
      var items := queryItems;
      var first := true;
      var querySoFar := Join(".", queryItems);
      agent.FlushCurrentChat();
      ghost var spelled := IsBot(agent.mode) && AllNonEmpty(queryItems) && |Schema(fields)| <= Int32Max &&
                           SpelledQuery(Schema(fields), queryItems);
      while items != [] || first
        invariant IsSuffix(items, queryItems)
        invariant first ==> items == queryItems && view == QueryViewModel([], [], [])
        invariant first ==> response == Schema(fields)
        invariant !first ==> Offered(view.nextMoves)
        invariant agent.hasApi ==> Introduction() <= agent.chat
        invariant forall t :: t in view.transformations ==> TypeOf(t) != Empty
        invariant first ==> agent.botRequests == old(agent.botRequests)
        invariant AllNonEmpty(queryItems) ==>
                    agent.botRequests <= old(agent.botRequests) + 1 &&
                    (agent.botRequests == old(agent.botRequests) + 1 ==> items == [])
        invariant !first && spelled ==>
                    view.transformations != [] &&
                    BuildTransformation(queryItems[0], StageTokens(Create(queryItems[0]).value, queryItems[1..])) ==
                    Success(view.transformations[0])
        decreases |items| + (if first then 1 else 0)
      {
        ghost var before := items;
        SuffixNonEmpty(queryItems, items);
        var stop;
        ghost var catalogAnswer;
        stop, items, view, catalogAnswer := CaughtRound(querySoFar, items, first, view);
        SuffixOfSuffix(queryItems, before, items);
        first := false;
        if stop {
          left := items;
          return;
        }
      }
      left := items;
    }
  }
}
