/**
 Vert.x's `AsyncResult<T>`: the completed outcome of an asynchronous step, and
 the Java exceptions that fail one.
 */
module Async {
  import opened Optional

  /** The exception classes that occur on the modelled paths. */
  datatype ExceptionClass =
    | NoStackTraceThrowable   // what `Future.failedFuture(String)` creates
    | RuntimeException
    | ClassCastException
    | NullPointerException
    | QueueLimitReached       // the client's own exception class

  /** A Java `Throwable`: its class and its (nullable) message. */
  datatype Throwable = Throwable(cls: ExceptionClass, message: Option<string>)

  /** A completed asynchronous result: succeeded with a value, or failed with a cause. */
  datatype AsyncResult<+T> = Succeeded(result: T) | Failed(cause: Throwable)
}
