/** Conversation messages (`llm/types.go`), as the request encoders read them. */
module Messages {
  import opened Common

  type Bytes = seq<bv8>

  /** An image or document: by URL, or inline. */
  datatype Media = Media(url: string, data: Bytes, mediaType: string)

  datatype Use = Use(id: string, name: string, input: string, signature: string)

  /** A content block; what a block may leave nil is an option. */
  datatype Block =
    | Text(text: string)
    | Image(image: Option<Media>)
    | Document(document: Option<Media>)
    | ToolUse(use: Option<Use>)
    | ToolResult(id: string, result: string, isError: bool)
    | OtherBlock

  datatype Message = Message(role: string, content: seq<Block>)

  /** The text standing for a failed result that carries none. */
  const UNSPECIFIED := "tool execution failed; no error message was provided"
}
