/** Option type shared by every module of the model. */
module Wrappers {
  datatype Option<+T> = None | Some(value: T)
}

/** Exceptions raised by the realtime client, as values. */
module Errors {
  import opened Wrappers

  /** `AblyException(message, status_code, code)`; `AblyAuthException` has the same fields. */
  datatype AblyError = AblyError(message: string, statusCode: int, code: int)

  /** What a call can raise. `TypeError` is what Python raises for `raise None`. */
  datatype Error =
    | Ably(ably: AblyError)
    | Auth(auth: AblyError)
    | TypeError(message: string)
    | ValueError(message: string)
    | IndexError

  /** The result of an awaited call: it returns, or it raises. */
  datatype Outcome = Success | Raised(error: Error)

  /** `raise reason` where the reason may be missing. */
  function RaiseReason(reason: Option<AblyError>): (e: Error)
    ensures e.Ably? <==> reason.Some?
    ensures reason.Some? ==> e == Ably(reason.value)
  {
    match reason
    case Some(r) => Ably(r)
    case None => TypeError("exceptions must derive from BaseException")
  }
}

/** Protocol frames as the channel and the connection see them, after JSON decoding. */
module Protocol {
  import opened Wrappers

  /** Channel-level action codes. Their integers belong to an enumeration that
      is not part of this model, so they are abstract constructors here. */
  datatype Action =
    | AttachAction | AttachedAction | DetachAction | DetachedAction | MessageAction
    | OtherAction(code: int)

  /** The JSON scalars a field such as `nonfatal` can hold. */
  datatype Json = JBool(b: bool) | JNull | JNumber(n: int) | JString(s: string)

  /** The `error` object of a frame. */
  datatype ErrorInfo = ErrorInfo(message: string, statusCode: int, code: int, nonfatal: Json)

  /** A decoded data message; `name` is the key it is emitted under. */
  datatype DataMessage = DataMessage(name: Option<string>, data: string)

  /** An inbound channel frame. `flags == 0` stands for "absent or zero" (both falsy). */
  datatype InboundFrame = InboundFrame(
    action: Action,
    channelSerial: Option<string>,
    flags: nat,
    error: Option<ErrorInfo>,
    messages: seq<DataMessage>)

  /** An outbound control frame; an absent key is `None`. */
  datatype OutboundFrame = OutboundFrame(
    action: Action,
    channel: string,
    flags: Option<nat>,
    channelSerial: Option<string>)

  /** Python truthiness of an optional string: present and non-empty. */
  predicate Truthy(s: Option<string>) {
    s.Some? && s.value != ""
  }
}
