/** The simple chat agent (`SimpleVoiceAgent`): every utterance is echoed
    back through a fixed reply template and both sides are appended to an
    append-only history. Listening and speaking are console I/O; here the
    utterances are parameters and a reply is the text that would be spoken. */
module SimpleChat {
  import opened Text
  import opened History
  import opened Wrappers

  const ResponsePrefix := "I heard you say: '"
  const ResponseSuffix := "'. How can I help you with that?"

  /** The reply `process` produces for `text`. */
  function ResponseFor(text: string): string {
    ResponsePrefix + text + ResponseSuffix
  }

  /** The reply quotes the utterance verbatim between a fixed prefix and
      suffix, so the utterance can be read back out of it. */
  lemma ResponseQuotesText(text: string)
    ensures var r := ResponseFor(text);
            && StartsWith(r, ResponsePrefix) && EndsWith(r, ResponseSuffix)
            && |r| == |ResponsePrefix| + |text| + |ResponseSuffix|
            && r[|ResponsePrefix|..|r| - |ResponseSuffix|] == text
  {
    var r := ResponseFor(text);
    assert r[..|ResponsePrefix|] == ResponsePrefix;
    assert r[|r| - |ResponseSuffix|..] == ResponseSuffix;
    assert r[|ResponsePrefix|..|r| - |ResponseSuffix|] == text;
  }

  /** Different utterances get different replies. */
  lemma ResponseForInjective(a: string, b: string)
    requires ResponseFor(a) == ResponseFor(b)
    ensures a == b
  {
    ResponseQuotesText(a);
    ResponseQuotesText(b);
  }

  /** The exit test of `run`: the utterance, lower-cased but NOT stripped,
      is one of "exit", "quit", "bye". */
  predicate IsExitCommand(input: string) {
    Lower(input) in ["exit", "quit", "bye"]
  }

  /** The exit test ignores case but not surrounding whitespace. */
  lemma ExitCheckDoesNotStrip()
    ensures IsExitCommand("BYE") && IsExitCommand("Quit")
    ensures !IsExitCommand(" exit") && !IsExitCommand("exit\t")
  {
    assert Lower("BYE") == "bye";
    assert Lower("Quit") == "quit";
    assert Lower(" exit")[0] == ' ';
    assert Lower("exit\t")[4] == '\t';
  }

  /** No utterance with whitespace at either end is an exit command. */
  lemma ExitCommandIsUnpadded(s: string)
    ensures IsExitCommand(s) ==> s != [] && !IsSpace(s[0]) && !IsSpace(s[|s| - 1])
  {
    if IsExitCommand(s) {
      LowerAt(s, 0);
      LowerAt(s, |s| - 1);
    }
  }

  /** Only the lower-case form of an utterance decides whether it exits. */
  lemma ExitCheckIgnoresCase(s: string, t: string)
    ensures Lower(s) == Lower(t) ==> (IsExitCommand(s) <==> IsExitCommand(t))
    ensures IsExitCommand(s) <==> IsExitCommand(Lower(s))
  {
    LowerIdempotent(s);
  }

  /** The index of the first exit command in a script of utterances, or its
      length when there is none: how many utterances `run` processes. */
  function FirstExit(inputs: seq<string>): (k: nat)
    ensures k <= |inputs|
    ensures forall j :: 0 <= j < k ==> !IsExitCommand(inputs[j])
    ensures k < |inputs| ==> IsExitCommand(inputs[k])
  {
    if inputs == [] || IsExitCommand(inputs[0]) then 0
    else 1 + FirstExit(inputs[1..])
  }

  /** Walking the script from the front: at a position no later than the
      first exit command, the utterance there exits exactly when that
      position is the first exit. */
  lemma FirstExitStep(inputs: seq<string>, i: nat)
    requires i < |inputs| && i <= FirstExit(inputs)
    ensures IsExitCommand(inputs[i]) <==> FirstExit(inputs) == i
  {
  }

  /** The history that processing `inputs` in order appends. */
  function Transcript(inputs: seq<string>): seq<Message> {
    if inputs == [] then []
    else
      var last := inputs[|inputs| - 1];
      Transcript(inputs[..|inputs| - 1]) + Turn(last, ResponseFor(last))
  }

  /** The transcript holds, for the i-th utterance, its user entry at 2*i
      and its reply at 2*i+1, and nothing else. */
  lemma {:induction false} TranscriptAt(inputs: seq<string>, i: nat)
    requires i < |inputs|
    ensures |Transcript(inputs)| == 2 * |inputs|
    ensures Transcript(inputs)[2 * i] == Message(User, inputs[i])
    ensures Transcript(inputs)[2 * i + 1] == Message(Assistant, ResponseFor(inputs[i]))
  {
    var n := |inputs| - 1;
    var front := inputs[..n];
    if i < n {
      TranscriptAt(front, i);
    } else if n > 0 {
      TranscriptAt(front, 0);
    }
  }

  /** Processing one more utterance extends the transcript by its exchange. */
  lemma TranscriptSnoc(inputs: seq<string>, i: nat)
    requires i < |inputs|
    ensures Transcript(inputs[..i + 1]) == Transcript(inputs[..i]) + Turn(inputs[i], ResponseFor(inputs[i]))
  {
    assert inputs[..i + 1][..i] == inputs[..i];
  }

  class SimpleVoiceAgent {
    var language: string
    var conversationHistory: seq<Message>

    /** The history only ever holds whole user/assistant exchanges. */
    ghost predicate Valid()
      reads this
    {
      Paired(conversationHistory)
    }

    constructor (language: string := "en-US")
      ensures Valid()
      ensures this.language == language && conversationHistory == []
    {
      this.language := language;
      conversationHistory := [];
    }

    /** `process`: records the utterance, then the reply, and returns the
        reply. Only the history may change; `language` never does. */
    method Process(text: string) returns (response: string)
      requires Valid()
      modifies this`conversationHistory
      ensures Valid()
      ensures response == ResponseFor(text)
      ensures conversationHistory == old(conversationHistory) + Turn(text, response)
    {
      ghost var before := conversationHistory;
      conversationHistory := conversationHistory + [Message(User, text)];
      response := ResponsePrefix + text + ResponseSuffix;
      conversationHistory := conversationHistory + [Message(Assistant, response)];
      assert conversationHistory == before + Turn(text, response);
      PairedAppend(before, text, response);
    }

    /** One pass of the `run` loop body: an exit command ends the loop
        without touching the history; anything else is processed and its
        reply returned for speaking. */
    method Handle(input: string) returns (done: bool, response: Option<string>)
      requires Valid()
      modifies this`conversationHistory
      ensures Valid()
      ensures done == IsExitCommand(input)
      ensures done ==> response == None && conversationHistory == old(conversationHistory)
      ensures !done ==> response == Some(ResponseFor(input)) &&
                        conversationHistory == old(conversationHistory) + Turn(input, ResponseFor(input))
    {
      if Lower(input) in ["exit", "quit", "bye"] {
        return true, None;
      }
      var r := Process(input);
      return false, Some(r);
    }

    /** The `run` loop over a finite script of utterances: it processes
        utterances in order up to, and not including, the first exit
        command, and returns the replies it spoke. The script is a prefix of
        a session, not its end: when input runs out, `input()` raises
        `EOFError`, which the loop's `except Exception` catches, so `run`
        goes on looping without processing anything. */
    method Run(inputs: seq<string>) returns (responses: seq<string>)
      requires Valid()
      modifies this`conversationHistory
      ensures Valid()
      ensures |responses| == FirstExit(inputs)
      ensures forall j :: 0 <= j < |responses| ==> responses[j] == ResponseFor(inputs[j])
      ensures conversationHistory == old(conversationHistory) + Transcript(inputs[..FirstExit(inputs)])
    {
      responses := [];
      var i := 0;
      while i < |inputs|
        invariant 0 <= i <= |inputs|
        invariant Valid()
        invariant i <= FirstExit(inputs)
        invariant |responses| == i
        invariant forall j :: 0 <= j < i ==> responses[j] == ResponseFor(inputs[j])
        invariant conversationHistory == old(conversationHistory) + Transcript(inputs[..i])
      {
        var done, response := Handle(inputs[i]);
        FirstExitStep(inputs, i);
        if done {
          break;
        }
        TranscriptSnoc(inputs, i);
        responses := responses + [response.value];
        i := i + 1;
      }
      assert i == FirstExit(inputs);
    }
  }
}
