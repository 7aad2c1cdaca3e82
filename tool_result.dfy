/**
 * The reply every tool handler returns: `{ content: [{ type, text }] }`.
 * Every handler of both servers answers with one block of type "text".
 */
module ToolResult {

  /** One content block; `kind` is the block's `type` field. */
  datatype Content = Content(kind: string, text: string)

  datatype Envelope = Envelope(content: seq<Content>) {

    /** Exactly one content block, of type "text". */
    predicate IsText() {
      |content| == 1 && content[0].kind == "text"
    }

    function Text(): string
      requires IsText()
    {
      content[0].text
    }
  }

  /** The envelope `{ content: [{ type: "text", text }] }`. */
  function TextEnvelope(text: string): (e: Envelope)
    ensures e.IsText() && e.Text() == text
  {
    Envelope([Content("text", text)])
  }

  /** A text envelope carries nothing but its text. */
  lemma TextEnvelopeInjective(a: string, b: string)
    ensures TextEnvelope(a) == TextEnvelope(b) <==> a == b
  {
    if TextEnvelope(a) == TextEnvelope(b) {
      assert TextEnvelope(a).Text() == TextEnvelope(b).Text();
    }
  }
}
