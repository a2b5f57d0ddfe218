/**
 * The generative-language service both programs talk to, seen from outside:
 * the shape of what it is sent and what one call can come back with.
 */
module Generator {

  /** The two speakers of a transcript. */
  datatype Role = User | Model

  /** One entry of the `contents` list handed to the generator. */
  datatype Content = Content(role: Role, text: string)

  /** One call to the generator: it answers with a text, possibly empty, or it throws. */
  datatype Outcome = Text(text: string) | Throws

  /** Substituted when the generator answers with the empty text. */
  const Fallback := "I'm sorry, I couldn't generate a response."

  /** The generated text, or the fallback when it is empty: the reply is never empty. */
  function ReplyText(generated: string): (reply: string)
    ensures reply != ""
    ensures generated != "" ==> reply == generated
    ensures generated == "" ==> reply == Fallback
  {
    if generated == "" then Fallback else generated
  }
}
