/** The local stand-in for the invocation context the hosting platform passes
    to a handler (`LambdaContext` in lambada/common.py). The wall clock is an
    explicit parameter: `now` is the current time in milliseconds. */
module Context {
  import opened Values

  /** The value `__init__` leaves in `_end`: `now + timeout*1000` when the
      timeout is truthy; `None` when the attribute is never assigned. */
  function Deadline(now: int, timeout: Option<int>): (d: Option<int>)
    ensures d.Some? <==> timeout.Some? && timeout.value != 0
    ensures d.Some? ==> d.value - now == 1000 * timeout.value
  {
    if timeout.Some? && timeout.value != 0 then Some(now + timeout.value * 1000) else None
  }

  class LambdaContext {
    var functionName: string
    var functionVersion: Value
    var invokedFunctionArn: Value
    var memoryLimitInMb: Value
    var awsRequestId: Value
    var logGroupName: Value
    var logStreamName: Value
    var identity: Value
    var clientContext: Value
    /** `_end`; `None` stands for the attribute never having been assigned. */
    var end: Option<int>

    /** Stores every field unchanged and, only for a truthy timeout, the deadline. */
    constructor(
      now: int,
      functionName: string,
      functionVersion: Value := Null,
      invokedFunctionArn: Value := Null,
      memoryLimitInMb: Value := Null,
      awsRequestId: Value := Null,
      logGroupName: Value := Null,
      logStreamName: Value := Null,
      identity: Value := Null,
      clientContext: Value := Null,
      timeout: Option<int> := None)
      ensures this.functionName == functionName
      ensures this.functionVersion == functionVersion
      ensures this.invokedFunctionArn == invokedFunctionArn
      ensures this.memoryLimitInMb == memoryLimitInMb
      ensures this.awsRequestId == awsRequestId
      ensures this.logGroupName == logGroupName
      ensures this.logStreamName == logStreamName
      ensures this.identity == identity
      ensures this.clientContext == clientContext
      ensures end == Deadline(now, timeout)
    {
      this.functionName := functionName;
      this.functionVersion := functionVersion;
      this.invokedFunctionArn := invokedFunctionArn;
      this.memoryLimitInMb := memoryLimitInMb;
      this.awsRequestId := awsRequestId;
      this.logGroupName := logGroupName;
      this.logStreamName := logStreamName;
      this.identity := identity;
      this.clientContext := clientContext;
      if timeout.Some? && timeout.value != 0 {
        end := Some(now + timeout.value * 1000);
      } else {
        end := None;
      }
    }

    /** `get_remaining_time_in_millis` as written: reading `_end` when it was
        never assigned raises AttributeError instead of returning None. */
    function GetRemainingTimeAsWritten(now: int): (r: Result<Option<int>>)
      reads this
      ensures r.Failure? <==> end.None?
      ensures r.Failure? ==> r.error == AttributeError("_end")
      ensures r.Success? ==> r.value == GetRemainingTimeInMillis(now)
    {
      if end.None? then Failure(AttributeError("_end"))
      else Success(GetRemainingTimeInMillis(now))
    }

    /** Remaining time as intended: absent without a deadline (a deadline of
        exactly 0 is falsy and also reads as absent), otherwise the signed
        distance from `now` to the deadline, negative once it has passed. */
    function GetRemainingTimeInMillis(now: int): (r: Option<int>)
      reads this
      ensures r.None? <==> end.None? || end.value == 0
      ensures r.Some? ==> now + r.value == end.value
      ensures r.Some? ==> (r.value < 0 <==> now > end.value)
    {
      if end.None? || end.value == 0 then None else Some(end.value - now)
    }
  }

  /** A context built at time `start` with a truthy timeout counts down the
      timeout, in milliseconds, from that moment. */
  lemma CountdownFromConstruction(c: LambdaContext, start: int, timeout: int, now: int)
    requires timeout != 0 && start + 1000 * timeout != 0
    requires c.end == Deadline(start, Some(timeout))
    ensures c.GetRemainingTimeInMillis(now) == Some(1000 * timeout - (now - start))
  {
  }

  /** Without a truthy timeout the intended query reports no remaining time at
      every clock reading, while the code as written raises AttributeError. */
  lemma NoTimeoutMeansNoRemainingTime(c: LambdaContext, start: int, timeout: Option<int>, now: int)
    requires timeout == None || timeout == Some(0)
    requires c.end == Deadline(start, timeout)
    ensures c.GetRemainingTimeInMillis(now) == None
    ensures c.GetRemainingTimeAsWritten(now) == Failure(AttributeError("_end"))
  {
  }
}
