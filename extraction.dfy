/** The extraction call `run_receipt_agent`, in its two revisions: `app/agent.py`
    (raises `ReceiptProcessingError`) and the root `agent.py` (returns `None`). The LLM
    itself is the oracle `llm`, which maps the user content to the provider's reply. */
module Extraction {
  import opened Wrappers
  import opened Receipts

  newtype byte = b: int | 0 <= b < 256

  /** `receipt_path: Path | str`: a `str` is a URL, a `Path` names a local file. */
  datatype ReceiptPath = UrlString(url: string) | FilePath(path: string)

  /** pydantic-ai's `ImageUrl` and `BinaryContent`. */
  datatype Image = ImageUrl(url: string) | BinaryContent(data: seq<byte>, mediaType: string)

  datatype Part = TextPart(text: string) | ImagePart(image: Image)

  /** The tuple handed to `receipt_agent.run`. */
  type UserContent = seq<Part>

  /** The provider's answer before pydantic-ai validates it against the output type. */
  datatype ModelReply = Replied(output: AgentOutput) | ProviderFailed(description: string)

  /** The outcome of `receipt_agent.run`: an output, or an `AgentRunError` and its text. */
  datatype RunResult = RunOk(output: AgentOutput) | AgentRunError(description: string)

  /** `app/agent.py`'s result: the output, or `ReceiptProcessingError` and its message. */
  datatype AppResult = Output(output: AgentOutput) | ProcessingError(message: string)

  const MediaTypePng := "image/png"
  const ProcessingErrorPrefix := "Error processing receipt: "
  /** pydantic-ai's message when the reply never matched the output type. */
  const OutputValidationFailed := "Exceeded maximum retries (1) for output validation"

  /** Input selection: a URL string is sent by reference, a file by its bytes as PNG.
      `fileBytes` stands for `receipt_path.read_bytes()`. */
  function SelectImage(p: ReceiptPath, fileBytes: seq<byte>): (img: Image)
    ensures img.ImageUrl? <==> p.UrlString?
    ensures p.UrlString? ==> img.url == p.url
    ensures p.FilePath? ==> img.data == fileBytes && img.mediaType == MediaTypePng
  {
    match p
    case UrlString(url) => ImageUrl(url)
    case FilePath(_) => BinaryContent(fileBytes, MediaTypePng)
  }

  /** Content assembly: `(text, image) if text else (image,)`. */
  function AssembleContent(text: Option<string>, image: Image): (c: UserContent)
  {
    if TruthyText(text) then [TextPart(text.value), ImagePart(image)] else [ImagePart(image)]
  }

  /** The image a content tuple carries: its last part. */
  function ContentImage(c: UserContent): Option<Image> {
    if |c| > 0 && c[|c| - 1].ImagePart? then Some(c[|c| - 1].image) else None
  }

  /** The hint text a content tuple carries: a leading text part, if any. */
  function ContentText(c: UserContent): Option<string> {
    if |c| == 2 && c[0].TextPart? then Some(c[0].text) else None
  }

  /** Reading the content back recovers the image, and the text exactly when it was
      non-empty: an empty or absent text never reaches the agent. */
  lemma AssembleContentRecovers(text: Option<string>, image: Image)
    ensures ContentImage(AssembleContent(text, image)) == Some(image)
    ensures ContentText(AssembleContent(text, image)) == if TruthyText(text) then text else None
    ensures TruthyText(text) <==> |AssembleContent(text, image)| == 2
  {
  }

  /** `receipt_agent.run`: pydantic-ai checks the reply against `ReceiptAgentOutput`; a reply
      breaking the field constraints ends in an `AgentRunError` (retries are not modelled). */
  function RunAgent(reply: ModelReply): (r: RunResult)
    ensures r.RunOk? <==> reply.Replied? && ValidOutput(reply.output)
    ensures r.RunOk? ==> r.output == reply.output && ValidOutput(r.output)
  {
    match reply
    case Replied(o) => if ValidOutput(o) then RunOk(o) else AgentRunError(OutputValidationFailed)
    case ProviderFailed(d) => AgentRunError(d)
  }

  /** `run_receipt_agent` of `app/agent.py`. */
  function RunReceiptAgent(p: ReceiptPath, text: Option<string>, fileBytes: seq<byte>,
                           llm: UserContent -> ModelReply): (r: AppResult)
    ensures var run := RunAgent(llm(AssembleContent(text, SelectImage(p, fileBytes))));
            && (r.Output? <==> run.RunOk?)
            && (r.Output? ==> r.output == run.output && ValidOutput(r.output))
            && (r.ProcessingError? ==>
                  r.message == ProcessingErrorPrefix + run.description)
  {
    var image := SelectImage(p, fileBytes);
    var content := AssembleContent(text, image);
    match RunAgent(llm(content))
    case RunOk(o) => Output(o)
    case AgentRunError(d) => ProcessingError(ProcessingErrorPrefix + d)
  }

  /** `run_receipt_agent` of the root `agent.py`. */
  function RunReceiptAgentOrNone(p: ReceiptPath, text: Option<string>, fileBytes: seq<byte>,
                                 llm: UserContent -> ModelReply): (r: Option<AgentOutput>)
    ensures var run := RunAgent(llm(AssembleContent(text, SelectImage(p, fileBytes))));
            && (r.Some? <==> run.RunOk?)
            && (r.Some? ==> r.value == run.output && ValidOutput(r.value))
  {
    var image := SelectImage(p, fileBytes);
    var content := AssembleContent(text, image);
    match RunAgent(llm(content))
    case RunOk(o) => Some(o)
    case AgentRunError(_) => None
  }

  /** A provider failure is never reported as `InvalidReceipt`: it becomes a
      `ReceiptProcessingError` carrying the failure's text. */
  lemma ProviderFailureIsNotInvalid(p: ReceiptPath, text: Option<string>, fileBytes: seq<byte>,
                                    llm: UserContent -> ModelReply, d: string)
    requires llm(AssembleContent(text, SelectImage(p, fileBytes))) == ProviderFailed(d)
    ensures RunReceiptAgent(p, text, fileBytes, llm) == ProcessingError(ProcessingErrorPrefix + d)
    ensures RunReceiptAgentOrNone(p, text, fileBytes, llm) == None
  {
  }

  /** The two revisions see the same content and differ only in how they signal failure:
      the root one returns `None` exactly where `app/agent.py` raises, and the same output
      everywhere else, so it never raises `ReceiptProcessingError`. */
  lemma RevisionsAgree(p: ReceiptPath, text: Option<string>, fileBytes: seq<byte>,
                       llm: UserContent -> ModelReply)
    ensures RunReceiptAgentOrNone(p, text, fileBytes, llm).None? <==>
            RunReceiptAgent(p, text, fileBytes, llm).ProcessingError?
    ensures RunReceiptAgent(p, text, fileBytes, llm).Output? ==>
            RunReceiptAgentOrNone(p, text, fileBytes, llm) == Some(RunReceiptAgent(p, text, fileBytes, llm).output)
  {
  }

  /** What `await run_receipt_agent(...)` does at a call site: returns a value (`None`
      only in the root revision) or raises `ReceiptProcessingError`. */
  datatype CallOutcome = Returned(value: Option<AgentOutput>) | Raised(message: string)

  function FromApp(r: AppResult): (o: CallOutcome)
    ensures o.Raised? <==> r.ProcessingError?
    ensures r.Output? ==> o == Returned(Some(r.output))
    ensures r.ProcessingError? ==> o.message == r.message
  {
    match r
    case Output(out) => Returned(Some(out))
    case ProcessingError(m) => Raised(m)
  }
}
