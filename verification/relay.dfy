/** How the assistant's reply text is chosen: the placeholder-key check and
    the decoding of the completion provider's answer into one string. */
module Relay {
  import opened Common

  /** Value used when `GROQ_API_KEY` is unset or empty. */
  const DefaultApiKey: string := "dummy_key_for_build"

  /** The one key value that switches the provider call off. */
  const PlaceholderKey: string := "YOUR_API_KEY_HERE"

  const PlaceholderReply: string :=
    "\U{26A0}\U{FE0F} Please add your Groq API key in server.js. Get it FREE from: https://console.groq.com/keys (Much better than Gemini!)"

  const UnexpectedReply: string := "I received an unexpected response from the AI. Please try again."

  function ApiErrorReply(message: string): string
  {
    "API Error: " + message + ". Please check your API key."
  }

  function TransportReply(message: string): string
  {
    "Error connecting to AI: " + message
  }

  /** `process.env.GROQ_API_KEY || 'dummy_key_for_build'`: an unset or empty
      variable gives the build default. */
  function ResolveApiKey(env: Option<string>): (key: string)
    ensures env.Some? && env.value != "" ==> key == env.value
    ensures env.None? || env.value == "" ==> key == DefaultApiKey
  {
    match env
    case Some(k) => if k != "" then k else DefaultApiKey
    case None => DefaultApiKey
  }

  /** An unset key does not count as the placeholder: the server still
      calls the provider, which answers as it does for any other key. */
  lemma UnsetKeyStillCallsProvider()
    ensures ResolveApiKey(None) != PlaceholderKey
    ensures ResolveApiKey(Some("")) != PlaceholderKey
  {
  }

  /** What one provider call produced.
      `Thrown(message)`: the request or the JSON decoding threw, with the
      exception's message.
      `Answered(error, content)`: a JSON body; `error` is `Some(m)` when
      `data.error` is truthy, `m` being `data.error.message` as text;
      `content` is `Some(c)` when `data.choices[0].message.content` is the
      string `c`. */
  datatype ProviderOutcome =
    | Thrown(message: string)
    | Answered(error: Option<string>, content: Option<string>)

  /** A string is truthy in JavaScript when it is not empty. */
  predicate HasText(content: Option<string>)
  {
    content.Some? && content.value != ""
  }

  /** The reply text for a provider outcome. A provider error wins over any
      content; non-empty first-choice content is relayed as it is; anything
      else gives the fixed "unexpected response" text; a thrown failure
      becomes a connection-error text. The reply is never empty. */
  function ResolveReply(outcome: ProviderOutcome): (r: string)
    ensures |r| > 0
    ensures outcome.Answered? && outcome.error.None? && HasText(outcome.content) ==> r == outcome.content.value
    ensures outcome.Answered? && outcome.error.Some? ==> r == ApiErrorReply(outcome.error.value)
    ensures outcome.Answered? && outcome.error.None? && !HasText(outcome.content) ==> r == UnexpectedReply
    ensures outcome.Thrown? ==> r == TransportReply(outcome.message)
  {
    match outcome
    case Thrown(m) => TransportReply(m)
    case Answered(err, content) =>
      if err.Some? then ApiErrorReply(err.value)
      else if HasText(content) then content.value
      else UnexpectedReply
  }

  /** A provider error hides whatever content came with it. */
  lemma ErrorOutranksContent(message: string, c1: Option<string>, c2: Option<string>)
    ensures ResolveReply(Answered(Some(message), c1)) == ResolveReply(Answered(Some(message), c2))
  {
  }

  /** An empty first-choice content is falsy and counts as an unexpected
      answer, exactly like a missing one. */
  lemma EmptyContentIsUnexpected()
    ensures ResolveReply(Answered(None, Some(""))) == ResolveReply(Answered(None, None)) == UnexpectedReply
  {
  }

  /** The assistant text the chat handler stores: the placeholder text when
      the key is the placeholder (and then the provider is not asked),
      otherwise the decoded provider outcome. */
  function ChosenReply(apiKey: string, outcome: ProviderOutcome): (r: string)
    ensures |r| > 0
    ensures apiKey == PlaceholderKey ==> r == PlaceholderReply
    ensures apiKey != PlaceholderKey ==> r == ResolveReply(outcome)
  {
    if apiKey == PlaceholderKey then PlaceholderReply else ResolveReply(outcome)
  }

  /** The prompts sent to the provider for one chat turn: only the current
      message, and nothing at all when the key is the placeholder. */
  function ProviderCalls(apiKey: string, message: string): (calls: seq<string>)
    ensures apiKey == PlaceholderKey <==> calls == []
    ensures calls == [] || calls == [message]
  {
    if apiKey == PlaceholderKey then [] else [message]
  }
}
