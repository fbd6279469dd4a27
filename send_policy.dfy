/**
 * The decision `sendToWebSocket` takes for one attempt, from the socket's
 * ready state and the cache's shared retry counter, and the linear backoff
 * schedule that results while the socket stays connecting.
 */
module SendPolicy {

  /** `WebSocket.readyState`. */
  datatype ReadyState = Connecting | Open | Closing | Closed

  /** The numeric readyState constants; a socket only moves to higher ones. */
  function StateRank(s: ReadyState): nat
  {
    match s
    case Connecting => 0
    case Open => 1
    case Closing => 2
    case Closed => 3
  }

  const MaxRetries: nat := 10
  const BaseDelay: nat := 300
  const DelayStep: nat := 100

  /** What one call of `sendToWebSocket` does. */
  datatype SendOutcome =
    | SendNow                  // the socket is open: send, reset the counter
    | RetryAfter(delay: nat)   // schedule another attempt after `delay` ms
    | GiveUpExhausted          // report that the retries are exhausted
    | GiveUpClosed             // report that the connection is closed

  /**
   * The four-way rule. Each outcome is characterised on its own: the branch
   * order of the source means that a used-up budget is reported as
   * exhaustion whatever the non-open state is, and that no state other than
   * connecting is ever retried.
   */
  function SendStep(state: ReadyState, retries: nat): (o: SendOutcome)
    ensures o == SendNow <==> state == Open
    ensures o.RetryAfter? <==> state == Connecting && retries < MaxRetries
    ensures o.RetryAfter? ==> o.delay == BaseDelay + DelayStep * retries
    ensures o.RetryAfter? ==> BaseDelay <= o.delay < BaseDelay + DelayStep * MaxRetries
    ensures o == GiveUpExhausted <==> state != Open && retries >= MaxRetries
    ensures o == GiveUpClosed <==> state != Open && state != Connecting && retries < MaxRetries
  {
    if state == Open then SendNow
    else if state == Connecting && retries < MaxRetries then RetryAfter(BaseDelay + retries * DelayStep)
    else if retries >= MaxRetries then GiveUpExhausted
    else GiveUpClosed
  }

  /** A delay the backoff can produce: 300, 400, ..., 1200 ms. */
  predicate IsBackoffDelay(delay: nat)
  {
    BaseDelay <= delay < BaseDelay + DelayStep * MaxRetries && (delay - BaseDelay) % DelayStep == 0
  }

  /**
   * The delays one message waits through when the shared counter stands at
   * `retries`, the socket stays in `state`, and no other message touches the
   * counter meanwhile: each timer increments the counter and tries again.
   */
  function RetryDelays(state: ReadyState, retries: nat): (d: seq<nat>)
    decreases if retries < MaxRetries then MaxRetries - retries else 0
    ensures state != Connecting ==> d == []
    ensures |d| == if state == Connecting && retries < MaxRetries then MaxRetries - retries else 0
    ensures forall i :: 0 <= i < |d| ==> d[i] == BaseDelay + DelayStep * (retries + i)
  {
    var o := SendStep(state, retries);
    if o.RetryAfter? then [o.delay] + RetryDelays(state, retries + 1) else []
  }

  /**
   * A message sent while the counter is 0 and the socket stays connecting is
   * retried exactly ten times, after 300, 400, ..., 1200 ms, and then the
   * attempt that follows reports exhaustion; it is never sent.
   */
  lemma FreshBudgetSchedule()
    ensures RetryDelays(Connecting, 0) == [300, 400, 500, 600, 700, 800, 900, 1000, 1100, 1200]
    ensures SendStep(Connecting, |RetryDelays(Connecting, 0)|) == GiveUpExhausted
  {
    var d := RetryDelays(Connecting, 0);
    assert |d| == 10;
    assert forall i :: 0 <= i < 10 ==> d[i] == 300 + 100 * i;
  }
}
