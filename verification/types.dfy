/** Record shapes shared by the whole model: the rows of the SQLite tables, the
    JSON payloads the code builds, and the error classes it distinguishes. */
module Types {

  type Uuid = nat

  /** A length of time in nanoseconds. */
  type Duration = nat

  const NANOS_PER_MILLI := 1_000_000
  const I64_MAX := 0x7fff_ffff_ffff_ffff
  const I64_MIN := -0x8000_0000_0000_0000

  datatype Option<+T> = None | Some(value: T)

  /** Db stands for a failed SQL statement: a violated UNIQUE constraint or a
      column that does not decode. */
  datatype Error = NotFound | InvalidState | Db

  datatype Result<+T> = Ok(value: T) | Err(error: Error)

  datatype Status = Pending | Running | Completed | Failed

  datatype EventType =
    | LlmCall
    | ToolCall
    | ToolResult
    | StateTransition
    | CheckpointProposed
    | CheckpointAccepted
    | CheckpointRejected

  datatype CheckpointState = CheckpointState(
    completed: seq<string>,
    remaining: seq<string>,
    artifacts: seq<string>,
    failedAttempts: seq<string>,
    evidence: seq<string>)

  /** A JSON document. Documents are only stored, returned and compared; the
      shapes that some code builds or takes apart have their own constructor. */
  datatype Value =
    | Document(text: string)
    | StateDocument(state: CheckpointState)
    | FileContent(content: string)
    | FileWritten(written: Option<string>)
    | ArtifactCheck(found: bool)
    | VerificationDocument(passed: bool, evidence: Value)
    | DecisionDocument(accepted: bool, verification: Value)

  datatype Call = Call(id: string, name: string, args: Value)

  datatype Verification = Verification(passed: bool, evidence: Value)

  /** Event payloads. Other covers whatever a caller of the raw append functions
      stores, with the fields that the SQL queries extract from it. */
  datatype Payload =
    | Transition(from: Status, to: Status)
    | Response(content: Value, calls: seq<Call>, stopReason: string)
    | Intent(callId: string, name: string, args: Value, toolCount: Option<nat>)
    | Outcome(callId: string, content: Value)
    | Proposal(checkpointId: int, round: int, state: CheckpointState)
    | Decision(checkpointId: int, verification: Value)
    | Other(extractedCallId: Option<string>, extractedName: Option<string>,
            extractedToolCount: Option<nat>, document: Value)
  {
    /** json_extract(payload, '$.call_id') */
    function CallId(): Option<string> {
      match this
      case Intent(id, _, _, _) => Some(id)
      case Outcome(id, _) => Some(id)
      case Other(id, _, _, _) => id
      case _ => None
    }

    /** json_extract(payload, '$.name') */
    function Name(): Option<string> {
      match this
      case Intent(_, name, _, _) => Some(name)
      case Other(_, name, _, _) => name
      case _ => None
    }

    /** COALESCE(json_extract(payload, '$.response_tool_count'), 1) */
    function ToolCount(): nat {
      match this
      case Intent(_, _, _, Some(n)) => n
      case Other(_, _, Some(n), _) => n
      case _ => 1
    }
  }

  function VerificationValue(v: Verification): Value {
    VerificationDocument(v.passed, v.evidence)
  }

  /** i64::checked_add */
  function CheckedAdd(a: int, b: int): Option<int> {
    if I64_MIN <= a + b <= I64_MAX then Some(a + b) else None
  }
}
