/** The behaviour every service inherits from `BaseService` (src/services/base/base-service.ts):
    an initialise-once flag, the guard that refuses use before initialisation, and the two
    error-wrapping helpers. */
module Base {
  import opened Wrappers

  /** `ensureInitialized()`: throws "<ClassName> must be initialized before use" exactly
      when the flag is false. */
  function EnsureInitialized(initialized: bool, className: string): (r: Outcome)
    ensures r.Pass? <==> initialized
    ensures r.Fail? ==> r.error == NotInitializedMessage(className)
  {
    if initialized then Pass else Fail(NotInitializedMessage(className))
  }

  function NotInitializedMessage(className: string): string
  {
    className + " must be initialized before use"
  }

  /** The message `handleError(error, context)` throws. */
  function Wrapped(context: string, message: string): (r: string)
    ensures |r| == |context| + 2 + |message|
    ensures r[..|context|] == context && r[|context| + 2..] == message
    ensures r[|context|..|context| + 2] == ": "
  {
    context + ": " + message
  }

  /** `handleError` always throws, with the context-prefixed message. */
  function HandleError<T>(context: string, message: string): (r: Result<T>)
    ensures r.Err? && |r.error| == |context| + 2 + |message|
    ensures r.error[..|context|] == context && r.error[|context| + 2..] == message
    ensures r.error[|context|..|context| + 2] == ": "
  {
    Err(Wrapped(context, message))
  }

  /** `safeExecute(operation, context, fallback)`: the operation's value on success; on
      failure the fallback when one is given, otherwise the context-prefixed error. */
  function SafeExecute<T>(operation: Result<T>, context: string, fallback: Option<T>): (r: Result<T>)
    ensures operation.Ok? ==> r == operation
    ensures operation.Err? && fallback.Some? ==> r == Ok(fallback.value)
    ensures operation.Err? && fallback.None? ==> r.Err? && r.error == Wrapped(context, operation.error)
  {
    match operation
    case Ok(_) => operation
    case Err(e) =>
      match fallback
      case Some(v) => Ok(v)
      case None => HandleError(context, e)
  }

  /** An `onInitialize` that awaits the `initialize()` of its dependencies one after the
      other: the first one that threw stops the chain and is rethrown. */
  function InSequence(outcomes: seq<Outcome>): (r: Outcome)
    ensures r.Pass? <==> forall i | 0 <= i < |outcomes| :: outcomes[i].Pass?
    ensures r.Fail? ==> exists i | 0 <= i < |outcomes| :: outcomes[i] == r && forall j | 0 <= j < i :: outcomes[j].Pass?
  {
    if outcomes == [] then Pass
    else if outcomes[0].Fail? then outcomes[0]
    else
      var rest := InSequence(outcomes[1..]);
      assert rest.Fail? ==> exists i | 1 <= i < |outcomes| :: outcomes[i] == rest && forall j | 0 <= j < i :: outcomes[j].Pass? by {
        if rest.Fail? {
          var k :| 0 <= k < |outcomes| - 1 && outcomes[1..][k] == rest && forall j | 0 <= j < k :: outcomes[1..][j].Pass?;
          assert forall j | 0 <= j < k + 1 :: outcomes[j].Pass? by {
            forall j | 0 <= j < k + 1 ensures outcomes[j].Pass? {
              if j > 0 { assert outcomes[j] == outcomes[1..][j - 1]; }
            }
          }
        }
      }
      rest
  }

  /** A service's life cycle: `initialize()` runs the subclass hook `onInitialize` only while
      the flag is false and sets the flag only when the hook returned. */
  class Service {
    const className: string
    var initialized: bool
    /** How many times `onInitialize` has been run. */
    var hookRuns: nat

    constructor (className: string)
      ensures this.className == className && !initialized && hookRuns == 0
    {
      this.className := className;
      initialized := false;
      hookRuns := 0;
    }

    /** `initialize()`, with `hook` the outcome `onInitialize` would have on this call. */
    method Initialize(hook: Outcome) returns (r: Outcome)
      modifies this
      ensures old(initialized) ==> r == Pass && initialized && hookRuns == old(hookRuns)
      ensures !old(initialized) ==> r == hook && hookRuns == old(hookRuns) + 1
      ensures initialized == (old(initialized) || hook.Pass?)
    {
      if initialized {
        return Pass;
      }
      hookRuns := hookRuns + 1;
      if hook.Fail? {
        return hook;
      }
      initialized := true;
      r := Pass;
    }

    /** `ensureInitialized()` on this instance. */
    function Guard(): (r: Outcome)
      reads this
      ensures r.Pass? <==> initialized
    {
      EnsureInitialized(initialized, className)
    }
  }

  /** Two calls to `initialize` with a hook that succeeds the first time: the hook runs
      once, and the second call is a no-op whatever the hook would now do. */
  method InitializeTwice(s: Service, later: Outcome)
    requires !s.initialized
    modifies s
    ensures s.initialized && s.hookRuns == old(s.hookRuns) + 1
  {
    var first := s.Initialize(Pass);
    var second := s.Initialize(later);
    assert second == Pass;
  }
}
