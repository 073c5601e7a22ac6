/**
  How the route handlers turn an exception raised inside their `try` block
  into the HTTP error the client receives.
 */
module Responses {
  import Text
  import opened Values

  /** `except Exception as e: raise HTTPException(500, prefix + str(e))`:
      every exception, an `HTTPException` the handler raised itself included,
      becomes a 500 whose detail ends with the exception's text. */
  function Wrapped(prefix: string, e: Error): Error
  {
    HttpError(500, prefix + Describe(e))
  }

  /** The same handler with `except HTTPException: raise` placed first: an
      `HTTPException` reaches the client unchanged, any other exception is
      wrapped as before. */
  function Rethrown(prefix: string, e: Error): Error
  {
    if e.HttpError? then e else Wrapped(prefix, e)
  }

  /** The text of a 404 or a 400 raised inside a wrapping handler. */
  lemma StatusText(status: nat, detail: string)
    requires status == 400 || status == 404
    ensures Describe(HttpError(status, detail)) == (if status == 400 then "400: " else "404: ") + detail
  {
    assert Text.Decimal(4) == "4";
    assert Text.Decimal(40) == Text.Decimal(4) + "0";
    assert Text.Decimal(400) == Text.Decimal(40) + "0";
    assert Text.Decimal(404) == Text.Decimal(40) + "4";
    assert Text.Decimal(status) + ": " == if status == 400 then "400: " else "404: ";
  }
}
