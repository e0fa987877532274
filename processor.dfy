/** The message-processing stage's choice between the command handler and the chat handler. */
module Processor {
  import opened PyStrings

  datatype Handler = CommandHandler | ChatHandler

  /** `any(text.startswith(prefix) for prefix in prefixes)`. */
  function AnyPrefix(text: string, prefixes: seq<string>): (r: bool)
    ensures r <==> exists i :: 0 <= i < |prefixes| && StartsWith(text, prefixes[i])
  {
    if prefixes == [] then false
    else StartsWith(text, prefixes[0]) || AnyPrefix(text, prefixes[1..])
  }

  /** `process`: the message chain's text is stripped, then the command handler is chosen
      when a configured prefix starts it, the chat handler otherwise. */
  function Dispatch(messageChainText: string, commandPrefixes: seq<string>): (r: Handler)
    ensures r == CommandHandler <==>
      exists i :: 0 <= i < |commandPrefixes| && StartsWith(Strip(messageChainText), commandPrefixes[i])
    ensures r == ChatHandler <==>
      forall i :: 0 <= i < |commandPrefixes| ==> !StartsWith(Strip(messageChainText), commandPrefixes[i])
  {
    var messageText := Strip(messageChainText);
    if AnyPrefix(messageText, commandPrefixes) then CommandHandler else ChatHandler
  }

  /** With no prefixes configured every message goes to chat. */
  lemma NoPrefixesMeansChat(text: string)
    ensures Dispatch(text, []) == ChatHandler
  {
  }

  /** An empty prefix sends every message to the command handler. */
  lemma EmptyPrefixMeansCommand(text: string, prefixes: seq<string>)
    requires "" in prefixes
    ensures Dispatch(text, prefixes) == CommandHandler
  {
    var i :| 0 <= i < |prefixes| && prefixes[i] == "";
    assert StartsWith(Strip(text), prefixes[i]);
  }

  /** Surrounding whitespace does not change the choice: " /help" is a command under "/". */
  lemma LeadingSpaceIgnored(text: string, prefixes: seq<string>)
    requires text != [] && !IsSpace(text[0]) && !IsSpace(text[|text| - 1])
    ensures Dispatch(" " + text + "\n", prefixes) == Dispatch(text, prefixes)
  {
    var padded := " " + text + "\n";
    assert TrimStart(padded) == text + "\n" by {
      assert padded[1..] == text + "\n";
      assert (text + "\n")[0] == text[0];
    }
    assert TrimEnd(text + "\n") == text by {
      assert (text + "\n")[..|text|] == text;
    }
    StripUnpadded(text);
  }
}
