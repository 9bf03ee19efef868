/** SimpleSnsApplicationException: an error code plus an optional detail message. */
module Errors {
  import opened Wrappers

  /**
    The error codes the modelled code raises. The enum's HTTP statuses and
    message texts are not part of this model: wherever the message of a code
    is needed, it is a parameter `codeMessage`.
   */
  datatype ErrorCode =
    | DuplicatedUserName
    | UserNotFound
    | InvalidPassword
    | NotificationConnectError

  /** The exception's two fields; a `null` message is `None`. */
  datatype AppException = AppException(errorCode: ErrorCode, message: Option<string>)

  /** The one-argument constructor: the message stays `null`. */
  function OfCode(code: ErrorCode): (e: AppException)
    ensures e.errorCode == code && e.message.None?
  {
    AppException(code, None)
  }

  /** The all-arguments constructor. */
  function OfCodeAndMessage(code: ErrorCode, message: string): (e: AppException)
    ensures e.errorCode == code && e.message == Some(message)
  {
    AppException(code, Some(message))
  }

  /**
    `getLocalizedMessage`: the code's message alone when there is no detail,
    otherwise `"%s (%s)"` of the code's message and the detail.
   */
  function LocalizedMessage(e: AppException, codeMessage: ErrorCode -> string): (r: string)
    ensures codeMessage(e.errorCode) <= r
    ensures r == codeMessage(e.errorCode) <==> e.message.None?
    ensures e.message.Some? ==> |r| == |codeMessage(e.errorCode)| + |e.message.value| + 3
  {
    match e.message
    case None => codeMessage(e.errorCode)
    case Some(m) => codeMessage(e.errorCode) + " (" + m + ")"
  }

  /**
    Reads the detail back out of a localized message whose code message is
    `prefix`: nothing when the message is the prefix alone; otherwise it must
    continue with `" ("` and end with `")"`, and the detail is what stands
    between them. Any other shape is not a localized message and gives `None`.
   */
  function DetailOf(prefix: string, localized: string): Option<string>
    requires prefix <= localized
  {
    if |localized| < |prefix| + 3 then None
    else if localized[|prefix|..|prefix| + 2] != " (" || localized[|localized| - 1] != ')' then None
    else Some(localized[|prefix| + 2..|localized| - 1])
  }

  /** The localized message loses nothing: its detail is recoverable, null or not. */
  lemma LocalizedMessageRoundTrip(e: AppException, codeMessage: ErrorCode -> string)
    ensures DetailOf(codeMessage(e.errorCode), LocalizedMessage(e, codeMessage)) == e.message
  {
    var p := codeMessage(e.errorCode);
    var r := LocalizedMessage(e, codeMessage);
    if e.message.Some? {
      var m := e.message.value;
      assert r == p + " (" + m + ")";
      assert r[|p|..|p| + 2] == " (";
      assert r[|p| + 2..|r| - 1] == m;
    }
  }

  /** Two exceptions with the same code are told apart by their localized messages exactly when their details differ. */
  lemma LocalizedMessageInjective(e1: AppException, e2: AppException, codeMessage: ErrorCode -> string)
    requires e1.errorCode == e2.errorCode
    ensures LocalizedMessage(e1, codeMessage) == LocalizedMessage(e2, codeMessage) <==> e1 == e2
  {
    if LocalizedMessage(e1, codeMessage) == LocalizedMessage(e2, codeMessage) {
      LocalizedMessageRoundTrip(e1, codeMessage);
      LocalizedMessageRoundTrip(e2, codeMessage);
    }
  }
}
