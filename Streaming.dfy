/** The streaming agent (`StreamingVoiceAgent`): a reply is produced as one
    chunk per word, each chunk the word plus a trailing space; the chunks
    are accumulated into the full reply, which is stored, stripped, in an
    append-only history after the user's entry. Delays, timing and console
    output are not modelled; the stream is the finite sequence of chunks. */
module Streaming {
  import opened Text
  import opened History

  /** The fixed sentences of the reply `generate_response_stream` simulates. */
  const ReplyOpening := "Thank you for asking about '"
  const ReplyRest :=
    "'. "
    + "Let me provide you with a detailed response. "
    + "Streaming allows me to start speaking while still generating text, "
    + "which significantly reduces the perceived latency. "
    + "This creates a more natural conversation flow."

  /** The reply `generate_response_stream` simulates for `userInput`. */
  function ResponseText(userInput: string): string {
    ReplyOpening + userInput + ReplyRest
  }

  /** One chunk per word, in order, each the word followed by one space. */
  function Chunks(words: seq<string>): (chunks: seq<string>)
    ensures |chunks| == |words|
    ensures forall i :: 0 <= i < |words| ==> chunks[i] == words[i] + " "
  {
    if words == [] then [] else [words[0] + " "] + Chunks(words[1..])
  }

  /** `generate_response_stream`: the chunks of the reply's words. */
  function GenerateResponseStream(userInput: string): (chunks: seq<string>)
    ensures var words := Split(ResponseText(userInput));
            |chunks| == |words| && forall i :: 0 <= i < |words| ==> chunks[i] == words[i] + " "
  {
    Chunks(Split(ResponseText(userInput)))
  }

  /** `speak_streaming`: consumes the stream chunk by chunk and returns the
      in-order concatenation of everything it consumed. */
  method SpeakStreaming(textStream: seq<string>) returns (fullResponse: string)
    ensures fullResponse == Concat(textStream)
  {
    fullResponse := "";
    for i := 0 to |textStream|
      invariant fullResponse == Concat(textStream[..i])
    {
      assert textStream[..i + 1] == textStream[..i] + [textStream[i]];
      ConcatSnoc(textStream[..i], textStream[i]);
      fullResponse := fullResponse + textStream[i];
    }
    assert textStream[..|textStream|] == textStream;
  }

  /** The concatenated chunks of a non-empty word list are the words joined
      by single spaces, plus one trailing space. */
  lemma {:induction false} ConcatChunks(words: seq<string>)
    requires words != []
    ensures Concat(Chunks(words)) == Join(words) + " "
  {
    if |words| > 1 {
      ConcatChunks(words[1..]);
      assert Chunks(words) == [words[0] + " "] + Chunks(words[1..]);
    }
  }

  /** Words joined by spaces neither start nor end with whitespace. */
  lemma {:induction false} JoinedWordsAreStripped(words: seq<string>)
    requires AllWords(words)
    ensures var s := Join(words);
            s == [] || (!IsSpace(s[0]) && !IsSpace(s[|s| - 1]))
    ensures words != [] ==> Join(words) != []
  {
    if words != [] {
      AllWordsTail(words);
      if |words| > 1 {
        JoinedWordsAreStripped(words[1..]);
      }
    }
  }

  /** The round trip `process_streaming` relies on: concatenating the
      chunks and stripping the result gives back exactly the words joined by
      single spaces, because `strip()` removes only the final space. */
  lemma StreamedReplyIsJoined(words: seq<string>, chunks: seq<string>)
    requires AllWords(words)
    requires |chunks| == |words| && forall i :: 0 <= i < |words| ==> chunks[i] == words[i] + " "
    ensures Strip(Concat(chunks)) == Join(words)
  {
    assert chunks == Chunks(words);
    if words != [] {
      ConcatChunks(words);
      JoinedWordsAreStripped(words);
      StripDropsTrailingSpace(Join(words));
    }
  }

  /** `strip()` of a stripped string plus one space gives the string back. */
  lemma StripDropsTrailingSpace(s: string)
    requires s != [] && !IsSpace(s[0]) && !IsSpace(s[|s| - 1])
    ensures Strip(s + " ") == s
  {
    var t := s + " ";
    assert IsSpace(t[|t| - 1]);
    assert t[..|t| - 1] == s;
    assert TrimRight(t) == TrimRight(s);
    StripStripped(s);
  }

  /** The reply text as `process_streaming` stores it: the words of the
      simulated reply joined by single spaces. */
  function StoredReply(userInput: string): string {
    Join(Split(ResponseText(userInput)))
  }

  /** The stored reply has exactly the words of the simulated reply: only
      the whitespace between them is normalised to single spaces. */
  lemma StoredReplyKeepsWords(userInput: string)
    ensures Split(StoredReply(userInput)) == Split(ResponseText(userInput))
  {
    SplitJoin(Split(ResponseText(userInput)));
  }

  /** What `process_streaming` stores for `userInput`: the streamed reply,
      concatenated and stripped, is the reply's words joined by single
      spaces. */
  lemma StoredReplyIsJoined(userInput: string)
    ensures Strip(Concat(GenerateResponseStream(userInput))) == Join(Split(ResponseText(userInput)))
  {
    StreamedReplyIsJoined(Split(ResponseText(userInput)), GenerateResponseStream(userInput));
  }

  /** The reply half of `process_streaming`: streams the reply to
      `userInput`, accumulating the chunks into the full text that is shown,
      and strips it into the reply, which is the reply's words joined by
      single spaces. */
  method StreamReply(userInput: string) returns (fullResponse: string, reply: string)
    ensures fullResponse == Concat(GenerateResponseStream(userInput))
    ensures reply == StoredReply(userInput)
  {
    var responseStream := GenerateResponseStream(userInput);
    fullResponse := SpeakStreaming(responseStream);
    StoredReplyIsJoined(userInput);
    reply := Strip(fullResponse);
  }

  /** The input and the whole-reply text of `run_comparison_demo`. */
  const ComparisonInput := "What are the benefits of voice agents?"
  const ComparisonResponse :=
    "The benefits of voice agents include hands-free operation, "
    + "natural interaction, accessibility for users with disabilities, "
    + "and increased efficiency in task completion."

  /** The commands of the `run` loop, read without stripping. */
  datatype StreamCommand = Quit | Compare | Converse(text: string)

  /** `run`'s dispatch: the lower-cased input (not stripped) ends the loop on
      "exit"/"quit", runs the comparison on "demo", and otherwise is a
      message passed on verbatim. */
  function ParseStreamCommand(input: string): (c: StreamCommand)
    ensures c.Quit? <==> Lower(input) in ["exit", "quit"]
    ensures c.Compare? <==> Lower(input) == "demo"
    ensures c.Converse? ==> c.text == input
  {
    var lowered := Lower(input);
    if lowered in ["exit", "quit"] then Quit
    else if lowered == "demo" then Compare
    else Converse(input)
  }

  class StreamingVoiceAgent {
    var conversationHistory: seq<Message>

    /** The history only ever holds whole user/assistant exchanges. */
    ghost predicate Valid()
      reads this
    {
      Paired(conversationHistory)
    }

    constructor ()
      ensures Valid() && conversationHistory == []
    {
      conversationHistory := [];
    }

    /** `process_streaming`: appends the user's entry verbatim, streams the
        reply, then appends the reply: its words joined by single spaces.
        Earlier entries are untouched. Returns the streamed text, which is
        what is shown chunk by chunk. */
    method ProcessStreaming(userInput: string) returns (shown: string)
      requires Valid()
      modifies this`conversationHistory
      ensures Valid()
      ensures shown == Concat(GenerateResponseStream(userInput))
      ensures conversationHistory ==
              old(conversationHistory) + Turn(userInput, StoredReply(userInput))
    {
      ghost var before := conversationHistory;
      PairedAppend(before, userInput, StoredReply(userInput));
      conversationHistory := conversationHistory + [Message(User, userInput)];
      var reply;
      shown, reply := StreamReply(userInput);
      conversationHistory := conversationHistory + [Message(Assistant, reply)];
      assert conversationHistory == before + Turn(userInput, reply);
    }

    /** `run_comparison_demo`: shows the whole reply, then streams the reply
        to a fixed question. It changes nothing (no `modifies` clause), so
        the history is untouched. */
    method RunComparisonDemo() returns (nonStreamed: string, streamed: string)
      ensures nonStreamed == ComparisonResponse
      ensures streamed == Concat(GenerateResponseStream(ComparisonInput))
      ensures Strip(streamed) == Join(Split(ResponseText(ComparisonInput)))
    {
      nonStreamed := ComparisonResponse;
      var stream := GenerateResponseStream(ComparisonInput);
      streamed := SpeakStreaming(stream);
      StoredReplyIsJoined(ComparisonInput);
    }

    /** One pass of the `run` loop body: "exit"/"quit" (any case) end the
        loop and show nothing; "demo" runs the comparison, showing the whole
        reply and then the streamed one, without touching the history; every
        other input is processed as a message, showing its streamed reply. */
    method Handle(input: string) returns (done: bool, shown: seq<string>)
      requires Valid()
      modifies this`conversationHistory
      ensures Valid()
      ensures done <==> Lower(input) in ["exit", "quit"]
      ensures done ==> shown == []
      ensures Lower(input) == "demo" ==>
                shown == [ComparisonResponse, Concat(GenerateResponseStream(ComparisonInput))]
      ensures Lower(input) in ["exit", "quit", "demo"] ==> conversationHistory == old(conversationHistory)
      ensures Lower(input) !in ["exit", "quit", "demo"] ==>
                shown == [Concat(GenerateResponseStream(input))] &&
                conversationHistory == old(conversationHistory) + Turn(input, StoredReply(input))
    {
      match ParseStreamCommand(input) {
        case Quit =>
          done, shown := true, [];
        case Compare =>
          var nonStreamed, streamed := RunComparisonDemo();
          done, shown := false, [nonStreamed, streamed];
        case Converse(text) =>
          var streamed := ProcessStreaming(text);
          done, shown := false, [streamed];
      }
    }
  }
}
