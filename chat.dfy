/** The checks `chat` runs before it builds the prompt and calls the
    language-model provider. */
module Chat {
  import opened Wrappers
  import opened Http

  const Unavailable := Response(false, 503, "Chat service is currently unavailable.")
  const MessageRequired := Response(false, 400, "Message is required.")

  /** The apology `chat` sends when the provider call raises. */
  const ProviderTrouble := Response(false, 500, "I apologize, but I'm having trouble responding right now. Please try again later.")

  /** The two shapes of reply the provider path gives: 200 with the model's
      text, or the 500 apology. */
  predicate ProviderAnswer(answer: Response) {
    (answer.success && answer.status == 200) || answer == ProviderTrouble
  }

  /** Either the handler answers at once, or it goes on to the provider with
      the user's message. */
  datatype Guard = Refuse(response: Response) | Forward(userMessage: string)

  /** The guard prefix of `chat`: `OPENAI_API_KEY` is checked before the body
      is read, and both checks are Python truthiness. */
  function ChatGuard(apiKey: Option<string>, p: Payload): (g: Guard)
    ensures apiKey == None || apiKey == Some("") ==> g == Refuse(Unavailable)
    ensures apiKey.Some? && apiKey.value != "" && !Filled(p, "message") ==> g == Refuse(MessageRequired)
    ensures g.Forward? <==> apiKey.Some? && apiKey.value != "" && Filled(p, "message")
    ensures g.Forward? ==> g.userMessage == p["message"] && g.userMessage != ""
  {
    if !Truthy(apiKey) then Refuse(Unavailable)
    else if !Filled(p, "message") then Refuse(MessageRequired)
    else Forward(p["message"])
  }
}
