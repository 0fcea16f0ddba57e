/** The web service: it splits the query typed so far into tokens, runs the query agent on
    them, keeps the committed transformations and puts the chatbot's suggestion first among the
    next moves; on request it renders the transformed table as CSV records. */
module Whisper {
  import opened Wrappers
  import opened Text
  import opened DataTypes
  import opened Transformations
  import opened TableTransformations
  import opened Communication
  import opened Query
  import opened CsvParser

  const QuerySeparator: char := '.'

  // ----- splitting the query -----

  /** string.Split on the separator: every segment, empty ones included. */
  function Segments(s: string): (r: seq<string>)
    ensures |r| >= 1
  {
    if s == [] then [""]
    else
      var rest := Segments(s[1..]);
      if s[0] == QuerySeparator then [""] + rest else [[s[0]] + rest[0]] + rest[1..]
  }

  /** The parts that are not empty, in order. */
  function RemoveEmpty(parts: seq<string>): seq<string>
  {
    if parts == [] then []
    else (if parts[0] == "" then [] else [parts[0]]) + RemoveEmpty(parts[1..])
  }

  /** string.Split with StringSplitOptions.RemoveEmptyEntries. */
  function Split(s: string): seq<string>
  {
    RemoveEmpty(Segments(s))
  }

  predicate NoSeparator(t: string)
  {
    QuerySeparator !in t
  }

  /** The segments joined by the separator give the text back, and none holds a separator. */
  lemma SegmentsJoin(s: string)
    ensures Join([QuerySeparator], Segments(s)) == s
    ensures forall k :: 0 <= k < |Segments(s)| ==> NoSeparator(Segments(s)[k])
  {
    SegmentsJoinBack(s);
    SegmentsHaveNoSeparator(s);
  }

  lemma {:induction false} SegmentsJoinBack(s: string)
    ensures Join([QuerySeparator], Segments(s)) == s
  {
    if s != [] {
      var rest := Segments(s[1..]);
      SegmentsJoinBack(s[1..]);
      if s[0] == QuerySeparator {
        JoinAfterEmpty([QuerySeparator], rest);
      } else {
        JoinExtendsHead([QuerySeparator], s[0], rest);
      }
      assert s == [s[0]] + s[1..];
    }
  }

  /** Joining after an empty first part puts one separator in front. */
  lemma JoinAfterEmpty(separator: string, parts: seq<string>)
    requires parts != []
    ensures Join(separator, [""] + parts) == separator + Join(separator, parts)
  {
    assert ([""] + parts)[1..] == parts;
  }

  /** Joining with the first part extended by c in front extends the joined text by c. */
  lemma JoinExtendsHead(separator: string, c: char, parts: seq<string>)
    requires parts != []
    ensures Join(separator, [[c] + parts[0]] + parts[1..]) == [c] + Join(separator, parts)
  {
    var r := [[c] + parts[0]] + parts[1..];
    if |parts| > 1 {
      assert r[0] == [c] + parts[0] && r[1..] == parts[1..];
      assert [c] + parts[0] + separator + Join(separator, parts[1..]) ==
             [c] + (parts[0] + separator + Join(separator, parts[1..]));
    }
  }

  lemma {:induction false} SegmentsHaveNoSeparator(s: string)
    ensures forall k :: 0 <= k < |Segments(s)| ==> NoSeparator(Segments(s)[k])
  {
    if s != [] {
      var rest := Segments(s[1..]);
      SegmentsHaveNoSeparator(s[1..]);
      if s[0] != QuerySeparator {
        var r := Segments(s);
        assert r[0] == [s[0]] + rest[0] && r[1..] == rest[1..];
      }
    }
  }

  lemma {:induction false} RemoveEmptyKeeps(parts: seq<string>)
    ensures forall k :: 0 <= k < |RemoveEmpty(parts)| ==> RemoveEmpty(parts)[k] in parts && RemoveEmpty(parts)[k] != ""
  {
    if parts != [] {
      RemoveEmptyKeeps(parts[1..]);
    }
  }

  /** Every token of a split query is non-empty and holds no separator. */
  lemma SplitTokens(s: string)
    ensures AllNonEmpty(Split(s))
    ensures forall k :: 0 <= k < |Split(s)| ==> NoSeparator(Split(s)[k])
  {
    SegmentsJoin(s);
    RemoveEmptyKeeps(Segments(s));
  }

  /** A text without separator followed by anything: it extends the first segment. */
  lemma {:induction false} SegmentsOfPrefix(t: string, s: string)
    requires NoSeparator(t)
    ensures Segments(t + s) == [t + Segments(s)[0]] + Segments(s)[1..]
  {
    if t != [] {
      assert (t + s)[0] == t[0] != QuerySeparator && (t + s)[1..] == t[1..] + s;
      SegmentsOfPrefix(t[1..], s);
      var rest := Segments(t[1..] + s);
      assert rest[0] == t[1..] + Segments(s)[0] && rest[1..] == Segments(s)[1..];
      assert [t[0]] + rest[0] == t + Segments(s)[0];
    } else {
      assert t + s == s && t + Segments(s)[0] == Segments(s)[0];
      assert Segments(s) == [Segments(s)[0]] + Segments(s)[1..];
    }
  }

  /** Joining separator-free parts by the separator and splitting again gives the parts back
      when at least one part is given. */
  lemma {:induction false} SegmentsOfJoin(parts: seq<string>)
    requires parts != []
    requires forall k :: 0 <= k < |parts| ==> NoSeparator(parts[k])
    ensures Segments(Join([QuerySeparator], parts)) == parts
  {
    if |parts| == 1 {
      SegmentsOfPrefix(parts[0], "");
      assert parts[0] + "" == parts[0];
    } else {
      var tail := Join([QuerySeparator], parts[1..]);
      SegmentsOfJoin(parts[1..]);
      assert parts[0] + [QuerySeparator] + tail == parts[0] + ([QuerySeparator] + tail);
      SegmentsOfPrefix(parts[0], [QuerySeparator] + tail);
      assert ([QuerySeparator] + tail)[1..] == tail;
      assert Segments([QuerySeparator] + tail) == [""] + parts[1..];
      assert parts[0] + "" == parts[0];
      assert parts == [parts[0]] + parts[1..];
    }
  }

  lemma {:induction false} RemoveEmptyOfNonEmpty(parts: seq<string>)
    requires AllNonEmpty(parts)
    ensures RemoveEmpty(parts) == parts
  {
    if parts != [] {
      RemoveEmptyOfNonEmpty(parts[1..]);
    }
  }

  /** Splitting is the inverse of joining: non-empty, separator-free tokens joined by the
      separator split back into the same tokens. */
  lemma SplitJoin(tokens: seq<string>)
    requires AllNonEmpty(tokens)
    requires forall k :: 0 <= k < |tokens| ==> NoSeparator(tokens[k])
    ensures Split(Join([QuerySeparator], tokens)) == tokens
  {
    if tokens != [] {
      SegmentsOfJoin(tokens);
      RemoveEmptyOfNonEmpty(tokens);
    }
  }

  // ----- placing the suggestion first -----

  /** The next moves with the suggestion first: when 0 < index < |moves|, the entry at index is
      removed and the suggestion inserted at the front; otherwise the moves as they are. */
  function MoveToFront(moves: seq<string>, suggestion: string, index: int): seq<string>
  {
    if 0 < index < |moves| then [suggestion] + (moves[..index] + moves[index + 1..]) else moves
  }

  /** With the suggestion at its own index, MoveToFront rearranges the moves: the same length
      and the same entries, the suggestion first, the entries before it shifted one place and
      the entries after it where they were. */
  lemma MoveToFrontPermutes(moves: seq<string>, index: int)
    requires 0 < index < |moves|
    ensures var r := MoveToFront(moves, moves[index], index);
            |r| == |moves| && multiset(r) == multiset(moves) && r[0] == moves[index] &&
            (forall j :: 0 <= j < index ==> r[j + 1] == moves[j]) &&
            (forall j :: index < j < |moves| ==> r[j] == moves[j])
  {
    var r := MoveToFront(moves, moves[index], index);
    assert moves == moves[..index] + [moves[index]] + moves[index + 1..];
    assert multiset(r) == multiset([moves[index]]) + multiset(moves[..index]) + multiset(moves[index + 1..]);
  }

  /** For any suggestion, MoveToFront keeps the length; outside the accepted index range it
      changes nothing, and inside it the suggestion is first and the other entries keep their
      relative order. */
  lemma MoveToFrontShape(moves: seq<string>, suggestion: string, index: int)
    ensures |MoveToFront(moves, suggestion, index)| == |moves|
    ensures !(0 < index < |moves|) ==> MoveToFront(moves, suggestion, index) == moves
    ensures 0 < index < |moves| ==>
              MoveToFront(moves, suggestion, index)[0] == suggestion &&
              MoveToFront(moves, suggestion, index)[1..] == moves[..index] + moves[index + 1..]
  {
  }

  // ----- the service -----

  /** The service state: the query typed so far, the last user input, the loaded table and the
      transformations of the last processed query. The view model's BotSuggestion and
      BotSuggestionIndex are functions of the view model given at construction. */
  class WhisperService {
    var querySoFar: string
    var userInput: string
    var inputFields: seq<Field>
    var transformations: seq<Transformation>
    var isInputFieldLoaded: bool
    const queryAgent: QueryAgent
    const rt: Runtime
    const botSuggestion: QueryViewModel -> string
    const botSuggestionIndex: QueryViewModel -> int

    constructor (queryAgent: QueryAgent, rt: Runtime, botSuggestion: QueryViewModel -> string, botSuggestionIndex: QueryViewModel -> int)
      ensures this.queryAgent == queryAgent && this.rt == rt
      ensures this.botSuggestion == botSuggestion && this.botSuggestionIndex == botSuggestionIndex
      ensures querySoFar == "" && userInput == "" && transformations == [] && !isInputFieldLoaded
    {
      this.queryAgent := queryAgent;
      this.rt := rt;
      this.botSuggestion := botSuggestion;
      this.botSuggestionIndex := botSuggestionIndex;
      querySoFar := "";
      userInput := "";
      inputFields := [];
      transformations := [];
      isInputFieldLoaded := false;
    }

    /** LoadInputFields: the table to work on. */
    method LoadInputFields(fields: seq<Field>)
      modifies this
      ensures inputFields == fields && isInputFieldLoaded
      ensures querySoFar == old(querySoFar) && userInput == old(userInput) && transformations == old(transformations)
    {
      inputFields := fields;
      isInputFieldLoaded := true;
    }

    /** StartNewConversation: the query and the transformations are emptied and the chat is
        started anew. */
    method StartNewConversation()
      modifies this, queryAgent.agent
      ensures querySoFar == "" && transformations == []
      ensures userInput == old(userInput) && inputFields == old(inputFields) && isInputFieldLoaded == old(isInputFieldLoaded)
      ensures queryAgent.agent.chat == (if queryAgent.agent.hasApi then Introduction() else old(queryAgent.agent.chat))
      ensures queryAgent.agent.botRequests == old(queryAgent.agent.botRequests)
    {
      querySoFar := "";
      transformations := [];
      queryAgent.StartNewQueryAttempt();
    }

    /** ProcessInput: the query is split into its non-empty tokens and run through the query
        agent; the committed transformations replace the previous ones and the next moves are
        returned with the suggestion first. Because every token is non-empty, the chatbot is
        asked at most once per call; no committed transformation is Empty; the moves returned
        are the last choice list offered, rearranged. */
    method ProcessInput(query: string) returns (moves: seq<string>, ghost view: QueryViewModel)
      modifies this, queryAgent, queryAgent.agent
      ensures querySoFar == query && transformations == view.transformations
      ensures userInput == old(userInput) && inputFields == old(inputFields) && isInputFieldLoaded == old(isInputFieldLoaded)
      ensures queryAgent.agent.botRequests <= old(queryAgent.agent.botRequests) + 1
      ensures forall t :: t in transformations ==> TypeOf(t) != Empty
      ensures Offered(view.nextMoves)
      ensures moves == MoveToFront(view.nextMoves, botSuggestion(view), botSuggestionIndex(view))
    {
      querySoFar := query;
      transformations := [];
      var tokens := Split(query);
      SplitTokens(query);
      var response;
      ghost var left;
      response, left := queryAgent.PerformQuerying(tokens, inputFields);
      view := response;
      transformations := response.transformations;
      var index := botSuggestionIndex(response);
      var nextMovesList := response.nextMoves;
      if 0 < index && index < |nextMovesList| {
        nextMovesList := nextMovesList[..index] + nextMovesList[index + 1..];
        nextMovesList := [botSuggestion(response)] + nextMovesList;
      }
      moves := nextMovesList;
    }

    /** LoadUserInput: the user's request is kept and handed to the query agent, which starts a
        new chat with it; the query so far is emptied. */
    method LoadUserInput(input: string)
      modifies this, queryAgent.agent
      ensures userInput == input && querySoFar == ""
      ensures transformations == old(transformations) && inputFields == old(inputFields) && isInputFieldLoaded == old(isInputFieldLoaded)
      ensures queryAgent.agent.chat == (if queryAgent.agent.hasApi then Introduction() else old(queryAgent.agent.chat))
      ensures input != "" ==> queryAgent.agent.userInputQuery == input
      ensures queryAgent.agent.botRequests == old(queryAgent.agent.botRequests)
    {
      userInput := input;
      queryAgent.AddUserQuery(Some(input));
      querySoFar := "";
    }

    /** GetCurrentTable: no records (the empty text) without transformations; otherwise the
        loaded table transformed by them and written out, or the exception a transformation
        raised. */
    method GetCurrentTable() returns (table: Result<seq<seq<string>>>)
      ensures transformations == [] ==> table == Success([])
      ensures transformations != [] ==>
                match Pipeline(rt, inputFields, transformations)
                case Failure(e) => table == Failure(e)
                case Success(fields) => table == Success(RecordsUntilAllEmpty(fields))
    {
      if transformations != [] {
        var fields := TransformFields(rt, inputFields, transformations);
        if fields.Failure? {
          return Failure(fields.error);
        }
        var result := WriteFieldsIntoCsv(fields.value);
        return Success(result);
      }
      return Success([]);
    }
  }
}
