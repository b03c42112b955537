/** Values shared by every part of the gateway model: options and results, JSON arguments,
    risk classes, and the typed errors a caller can be shown. */
module Common {

  datatype Option<+T> = None | Some(value: T)

  datatype Result<+T, +E> = Ok(value: T) | Err(error: E)

  /** A JSON value as the gateway sees it: the policy rules and the audit chain only ever
      inspect strings, so every other value is carried as its canonical text. */
  datatype Json = JString(text: string) | JOther(canonical: string)

  type Args = map<string, Json>

  datatype Risk = ReadOnly | Mutating | Destructive

  /** The classes of the exception hierarchy that the gateway branches on.  `SandboxTimeout`
      and `SandboxCrash` share the client code "sandbox_error" but are distinct classes. */
  datatype Code =
    | SchemaValidation
    | ToolNotFound
    | ToolNotEnabled
    | ToolExecutionFailed
    | SandboxTimeout
    | SandboxCrash
    | NeedsReview
    | StateStoreUnavailable
    | PolicyDenied
    | PolicyUnavailable
    | ApprovalTimeout
    | ApprovalRejected

  datatype GatewayError = GatewayError(code: Code, message: string, issueTypes: seq<string>)

  /** An exception: one of the gateway's own, or anything else. */
  datatype Exn = Gateway(error: GatewayError) | Unexpected(detail: string)

  function Raised(code: Code, message: string): Exn {
    Gateway(GatewayError(code, message, []))
  }

  /** The four codes that the gateway treats as a refusal rather than a failure. */
  predicate IsDenial(code: Code) {
    code in {PolicyDenied, PolicyUnavailable, ApprovalTimeout, ApprovalRejected}
  }

  predicate StartsWith(s: string, prefix: string) {
    prefix <= s
  }

  /** `part` occurs in `s` at position `i`. */
  predicate OccursAt(s: string, part: string, i: nat) {
    i + |part| <= |s| && s[i..i + |part|] == part
  }

  lemma OccurrenceReads(s: string, part: string, i: nat)
    ensures OccursAt(s, part, i) ==> forall j | 0 <= j < |part| :: s[i + j] == part[j]
  {
  }

  /** Substring containment. */
  predicate Contains(s: string, part: string) {
    exists i: nat | i <= |s| :: OccursAt(s, part, i)
  }

  predicate IsSpace(c: char) {
    c in {' ', '\t', '\n', '\r'}
  }

  /** `not text.strip()`: nothing but white space. */
  predicate Blank(text: string) {
    forall i | 0 <= i < |text| :: IsSpace(text[i])
  }

  function Max(a: int, b: int): int {
    if a >= b then a else b
  }
}
