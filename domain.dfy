/**
 * The records the UI reads after a file has been decoded, and the inputs that
 * stand for what the view-models cannot see: the file system, the decoder,
 * the conversion to domain objects, and the user's clicks while an operation
 * is awaiting a delay.
 */
module Domain {
  import opened Wrappers
  import opened Strings

  /**
   * One element of a run-parameter array: a set with its parameter map, which
   * may be null and may hold null values, or a null element.
   */
  datatype RunParameters = RunParameters(paramMap: Option<map<string, Option<string>>>) | NullRunParameters

  /** The set and its map are both non-null, so enumerating or looking up its entries does not throw. */
  predicate MapReadable(rp: RunParameters) {
    rp.RunParameters? && rp.paramMap.Some?
  }

  /**
   * A decoded project or workspace record. Every field the view-models read
   * may be null, so each is an `Option`; `reportNames` is a project's report
   * names or a workspace's report keys.
   */
  datatype Project = Project(
    name: Option<string>,
    description: Option<string>,
    rootDirectory: Option<string>,
    parameterKeys: Option<seq<string>>,
    runParametersArray: Option<seq<RunParameters>>,
    reportNames: Option<seq<Option<string>>>)

  /** What the conversion from the decoded DTO to the domain record does. */
  datatype Conversion =
    | ConversionThrows(message: string)
    | ConversionReturns(result: Option<Project>)

  /**
   * Reading and decoding a file: reading can throw, decoding can throw, and a
   * decoded DTO can be null; `conversion` says what converting it yields.
   */
  datatype FileLoad =
    | ReadFailed(message: string)
    | DecodeFailed(message: string)
    | Decoded(dtoIsNull: bool, conversion: Conversion)

  /** A `CancellationTokenSource`: whether cancellation was requested, and whether it was disposed. */
  datatype TokenSource = TokenSource(cancelRequested: bool, disposed: bool)

  /** A fresh token source. */
  const FreshTokenSource := TokenSource(false, false)

  /**
   * What the user does while one cancellable delay is pending: nothing; cancel,
   * so that the delay ends with a cancellation exception; or cancel just after
   * the delay has completed, before the loop resumes.
   */
  datatype DelayEvent = Elapsed | CanceledDuring | CanceledAfter

  /** The event of the `i`-th delay; iterations past the end of `events` see no cancellation. */
  function DelayEventAt(events: seq<DelayEvent>, i: nat): DelayEvent {
    if i < |events| then events[i] else Elapsed
  }

  /**
   * What happens during one iteration of the run-execution loop: the delay
   * elapses and the set is described; the same, then the user cancels; the user
   * cancels during the delay; or describing the set throws.
   */
  datatype RunEvent = Ran | RanThenCanceled | CanceledInDelay | DescribeFailed(message: string)

  function RunEventAt(events: seq<RunEvent>, i: nat): RunEvent {
    if i < |events| then events[i] else Ran
  }

  /** The message of a `NullReferenceException`. */
  const NullReferenceMessage := "Object reference not set to an instance of an object."

  /** The message of an `ArgumentNullException` built from a parameter name and a message. */
  function ArgumentNullMessage(message: string, parameter: string): string {
    message + " (Parameter '" + parameter + "')"
  }

  /** The default message of an `ArgumentNullException`. */
  const ValueCannotBeNull := "Value cannot be null."

  /** The error text a view-model shows when loading a file fails with `message`. */
  function LoadFailedText(message: string): (text: string)
    ensures EndsWith(text, message)
  {
    "Error loading workspace: " + message
  }
}
