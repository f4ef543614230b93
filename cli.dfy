/** The command-line variant (`main` in main.py): from the file's existence and what the
    extraction call did, to the log lines and the exit status. Argument parsing, logging
    configuration and the JSON dump of a receipt are not modelled beyond naming them. */
module Cli {
  import opened Wrappers
  import opened Receipts
  import opened Extraction

  datatype LogEntry =
    | LogInfo(text: string)
    | LogError(text: string)
    | LogReceiptJson(info: ReceiptInfo)  // `receipt_output.model_dump_json(indent=2)`

  /** The agent call the CLI makes: the path, and no text. */
  datatype AgentInvocation = AgentInvocation(path: ReceiptPath, text: Option<string>)

  datatype CliRun = CliRun(logs: seq<LogEntry>, exitCode: int, invocation: Option<AgentInvocation>)

  const NotRecognized := "The provided image was not recognized as a valid receipt."
  const ProcessedOk := "Receipt processed successfully:"

  /** `main` for the argument `path`; `outcome` is what `run_receipt_agent` did. */
  function RunCli(path: string, fileExists: bool, outcome: CallOutcome): (r: CliRun)
    // a missing file stops the run with status 1 before the agent is called
    ensures !fileExists ==> r == CliRun([LogError("Error: Receipt file not found at '" + path + "'")], 1, None)
    // otherwise the agent is called once, with the path and no text
    ensures fileExists ==> r.invocation == Some(AgentInvocation(FilePath(path), None))
    ensures fileExists && outcome.Returned? && outcome.value.Some? && outcome.value.value.Info? ==>
              r.exitCode == 0 && r.logs == [LogInfo(ProcessedOk), LogReceiptJson(outcome.value.value.info)]
    // InvalidReceipt, or None from the root agent, is reported as not recognised, status 0
    ensures fileExists && outcome.Returned? && !(outcome.value.Some? && outcome.value.value.Info?) ==>
              r.exitCode == 0 && r.logs == [LogInfo(NotRecognized)]
    ensures fileExists && outcome.Raised? ==>
              r.exitCode == 1 && r.logs == [LogError("Error during receipt processing: " + outcome.message)]
    ensures r.exitCode == 0 || r.exitCode == 1
  {
    if !fileExists then
      CliRun([LogError("Error: Receipt file not found at '" + path + "'")], 1, None)
    else
      var invocation := Some(AgentInvocation(FilePath(path), None));
      match outcome
      case Returned(Some(Info(info))) => CliRun([LogInfo(ProcessedOk), LogReceiptJson(info)], 0, invocation)
      case Returned(_) => CliRun([LogInfo(NotRecognized)], 0, invocation)
      case Raised(m) => CliRun([LogError("Error during receipt processing: " + m)], 1, invocation)
  }

  /** With the root `agent.py` the CLI imports, a failure of the agent is swallowed into
      `None`: the run then fails only when the file does not exist. */
  lemma RootAgentFailsOnlyOnMissingFile(path: string, fileExists: bool, fileBytes: seq<byte>,
                                        llm: UserContent -> ModelReply)
    ensures var outcome := Returned(RunReceiptAgentOrNone(FilePath(path), None, fileBytes, llm));
            RunCli(path, fileExists, outcome).exitCode == 1 <==> !fileExists
  {
  }

  /** With `app/agent.py`, status 1 means: no file, or the agent run failed. A reply the
      provider gives but that breaks the field constraints is such a failure. */
  lemma AppAgentExitCode(path: string, fileExists: bool, fileBytes: seq<byte>,
                         llm: UserContent -> ModelReply)
    ensures var content := AssembleContent(None, SelectImage(FilePath(path), fileBytes));
            var outcome := FromApp(RunReceiptAgent(FilePath(path), None, fileBytes, llm));
            RunCli(path, fileExists, outcome).exitCode == 1 <==> !fileExists || RunAgent(llm(content)).AgentRunError?
  {
  }
}
