/**
 * The route's side of the model service: the request it sends and the
 * content blocks it reads back. The call itself is not modelled; its
 * outcome is an input (`Reply`).
 */
module Messages {

  /** The model identifier and output budget the route always sends. */
  const ModelName: string := "claude-3-7-sonnet-20250219"
  const MaxTokens: nat := 4000

  datatype Message = Message(role: string, content: string)

  datatype MessageRequest = MessageRequest(model: string, maxTokens: nat, messages: seq<Message>)

  /** The request of `anthropic.messages.create`: one user message holding the prompt. */
  function CreateRequest(prompt: string): MessageRequest
  {
    MessageRequest(ModelName, MaxTokens, [Message("user", prompt)])
  }

  /** A content block of the reply: a block whose `type` is `text`, or a
      block of any other type (tool use, thinking, ...). */
  datatype ContentBlock = TextBlock(text: string) | OtherBlock

  /** What the call produced: it failed (threw), or it answered with blocks. */
  datatype Reply = CallFailed | Replied(content: seq<ContentBlock>)

  /** The result of reading the reply's blocks. */
  datatype Extraction = Extracted(svg: string) | NoContent | UnexpectedFormat

  /** Only the first block is read: its text, untrimmed, when it is a text block. */
  function ExtractSvg(content: seq<ContentBlock>): (e: Extraction)
    ensures e == NoContent <==> content == []
    ensures e == UnexpectedFormat <==> |content| > 0 && content[0].OtherBlock?
    ensures e.Extracted? <==> |content| > 0 && content[0].TextBlock?
    ensures e.Extracted? ==> e.svg == content[0].text
  {
    if |content| == 0 then NoContent
    else match content[0]
      case TextBlock(text) => Extracted(text)
      case OtherBlock => UnexpectedFormat
  }

  /** Blocks after the first never matter. */
  lemma ExtractIgnoresLaterBlocks(first: ContentBlock, rest1: seq<ContentBlock>, rest2: seq<ContentBlock>)
    ensures ExtractSvg([first] + rest1) == ExtractSvg([first] + rest2)
  {
  }
}
