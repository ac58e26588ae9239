/**
 * The chat terminal's bookkeeping (src/components/ui/GeminiTerminal.tsx):
 * the text being typed, the history of messages and the loading flag, as
 * `handleSend` updates them. The request to the model service is not part of
 * this model; its outcome arrives as a parameter.
 */
module GeminiTerminal {

  import opened Options

  datatype Role = User | Model

  datatype Message = Message(role: Role, text: string)

  const Greeting: string :=
    "Initializing Portfolio AI Protocol... [OK]\nHello! I am the AI assistant for this developer. " +
    "Ask me anything about their projects, skills, or experience."

  const MissingKeyError: string :=
    "Error: Please enter a valid Google Gemini API Key to enable my neural link."

  const ConnectionFault: string :=
    "Connection Fault: Unable to reach Gemini servers. Please check your API Key."

  // ---------------------------------------------------------------------------
  // String.prototype.trim
  // ---------------------------------------------------------------------------

  /** The characters `trim` removes: ECMAScript white space and line terminators. */
  predicate IsWhitespace(c: char) {
    c == '\t' || c == '\n' || c == '\U{000B}' || c == '\U{000C}' || c == '\r' || c == ' ' ||
    c == '\U{00A0}' || c == '\U{1680}' || ('\U{2000}' <= c <= '\U{200A}') ||
    c == '\U{2028}' || c == '\U{2029}' || c == '\U{202F}' || c == '\U{205F}' || c == '\U{3000}' ||
    c == '\U{FEFF}'
  }

  predicate Blank(s: string) {
    forall i :: 0 <= i < |s| ==> IsWhitespace(s[i])
  }

  /** `s` without its leading white space. */
  function TrimStart(s: string): (r: string)
    ensures |r| <= |s| && r == s[|s| - |r|..]
    ensures Blank(s[..|s| - |r|])
    ensures r == [] || !IsWhitespace(r[0])
  {
    if s != [] && IsWhitespace(s[0]) then TrimStart(s[1..]) else s
  }

  /** `s` without its trailing white space. */
  function TrimEnd(s: string): (r: string)
    ensures |r| <= |s| && r == s[..|r|]
    ensures Blank(s[|r|..])
    ensures r == [] || !IsWhitespace(r[|r| - 1])
  {
    if s != [] && IsWhitespace(s[|s| - 1]) then
      var r := TrimEnd(s[..|s| - 1]);
      assert s[|r|..] == s[..|s| - 1][|r|..] + [s[|s| - 1]];
      r
    else s
  }

  function Trim(s: string): string {
    TrimEnd(TrimStart(s))
  }

  /** `!input.trim()` holds exactly for the strings made only of white space. */
  lemma TrimEmptyIffBlank(s: string)
    ensures Trim(s) == "" <==> Blank(s)
  {
  }

  // ---------------------------------------------------------------------------
  // The component's state
  // ---------------------------------------------------------------------------

  class Terminal {
    var input: string
    var history: seq<Message>
    var loading: bool
    var apiKey: string

    /** The greeting stays the first entry, since updates only ever append. */
    ghost predicate Valid()
      reads this
    {
      |history| > 0 && history[0] == Message(Model, Greeting)
    }

    constructor ()
      ensures Valid()
      ensures history == [Message(Model, Greeting)]
      ensures input == "" && !loading && apiKey == ""
    {
      input := "";
      history := [Message(Model, Greeting)];
      loading := false;
      apiKey := "";
    }

    /** The `onChange` of the command line. */
    method Type(text: string)
      modifies this
      ensures input == text
      ensures history == old(history) && loading == old(loading) && apiKey == old(apiKey)
    {
      input := text;
    }

    /**
     * The `onChange` of the key field. The field is rendered only while no key
     * is set, so a key can be entered once and never replaced or cleared.
     */
    method EnterKey(key: string)
      requires apiKey == ""
      modifies this
      ensures apiKey == key
      ensures history == old(history) && loading == old(loading) && input == old(input)
    {
      apiKey := key;
    }

    /**
     * `handleSend` up to the request. Blank input does nothing. Without a key
     * the user's text and the key error are appended and the request is never
     * made. With a key the text is appended, the line is cleared, loading
     * starts, and the text to send is returned. Nothing here looks at
     * `loading`: a second send may begin while one is pending.
     */
    method BeginSend() returns (request: Option<string>)
      requires Valid()
      modifies this
      ensures Valid() && old(history) <= history && apiKey == old(apiKey)
      ensures Blank(old(input)) ==>
        request == None && input == old(input) && history == old(history) && loading == old(loading)
      ensures !Blank(old(input)) && old(apiKey) == "" ==>
        && request == None && input == "" && loading == old(loading)
        && history == old(history) + [Message(User, old(input)), Message(Model, MissingKeyError)]
      ensures !Blank(old(input)) && old(apiKey) != "" ==>
        && request == Some(old(input)) && input == "" && loading
        && history == old(history) + [Message(User, old(input))]
    {
      TrimEmptyIffBlank(input);
      if Trim(input) == "" {
        return None;
      }
      if apiKey == "" {
        history := history + [Message(User, input), Message(Model, MissingKeyError)];
        input := "";
        return None;
      }
      var userMsg := input;
      input := "";
      history := history + [Message(User, userMsg)];
      loading := true;
      request := Some(userMsg);
    }

    /**
     * The end of `handleSend` once the request settles: `Some(text)` is the
     * reply, `None` a failure anywhere in the request. One model entry is
     * appended and loading stops, on both paths.
     */
    method Finish(outcome: Option<string>)
      requires Valid()
      modifies this
      ensures Valid() && !loading
      ensures history == old(history) + [Message(Model, if outcome.Some? then outcome.value else ConnectionFault)]
      ensures input == old(input) && apiKey == old(apiKey)
    {
      match outcome {
        case Some(text) =>
          history := history + [Message(Model, text)];
        case None =>
          history := history + [Message(Model, ConnectionFault)];
      }
      loading := false;
    }
  }

  /** A question typed before any key is entered gets the key error and no request. */
  method AskWithoutKey(question: string) returns (h: seq<Message>, busy: bool)
    requires !Blank(question)
    ensures h == [Message(Model, Greeting), Message(User, question), Message(Model, MissingKeyError)]
    ensures !busy
  {
    var t := new Terminal();
    t.Type(question);
    var request := t.BeginSend();
    h, busy := t.history, t.loading;
  }

  /** With a key, one exchange leaves the question and its answer (or the fault) after the greeting. */
  method Exchange(key: string, question: string, outcome: Option<string>)
    returns (h: seq<Message>, busy: bool, sent: Option<string>)
    requires key != "" && !Blank(question)
    ensures sent == Some(question) && !busy
    ensures h == [Message(Model, Greeting), Message(User, question),
                  Message(Model, if outcome.Some? then outcome.value else ConnectionFault)]
  {
    var t := new Terminal();
    t.EnterKey(key);
    t.Type(question);
    sent := t.BeginSend();
    t.Finish(outcome);
    h, busy := t.history, t.loading;
  }
}
