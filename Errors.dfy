/** The exception classes the bot's handlers tell apart. */
module Errors {

  datatype Exc =
    | ValueError(msg: string)       // Python's ValueError, the bot's own "user-facing" error
    | JsonDecodeError(msg: string)  // json.JSONDecodeError, a subclass of ValueError
    | SlackApiError(code: string)   // slack_sdk's SlackApiError; `code` is e.response['error']
    | RequestException              // requests.exceptions.RequestException
    | OtherError                    // anything else: KeyError, TypeError, a transport failure, ...

  /** `isinstance(e, ValueError)`. */
  predicate IsValueError(e: Exc) {
    e.ValueError? || e.JsonDecodeError?
  }
}
