/**
 * The states of an interruptible runnable, and the int constants under which
 * the runnable stores them in its `state` field.
 */
module RunnableState {

  /** The four states a runnable can be in. */
  datatype State = NotRunning | Running | Paused | Canceled

  datatype Option<T> = None | Some(value: T)

  /** The int constant the runnable stores for a state: -1, 0, 1 or 2. */
  function Code(s: State): (c: int)
    ensures -1 <= c <= 2
    ensures c == -1 <==> s == NotRunning
  {
    match s
    case NotRunning => -1
    case Running => 0
    case Paused => 1
    case Canceled => 2
  }

  /** Reads an int constant back as a state; an int that is no state's constant gives None. */
  function FromCode(c: int): (r: Option<State>)
    ensures r.Some? <==> -1 <= c <= 2
    ensures r.Some? ==> Code(r.value) == c
  {
    if c == -1 then Some(NotRunning)
    else if c == 0 then Some(Running)
    else if c == 1 then Some(Paused)
    else if c == 2 then Some(Canceled)
    else None
  }

  /** Every state survives the round trip through its int constant. */
  lemma CodeRoundTrip(s: State)
    ensures FromCode(Code(s)) == Some(s)
  {
    match s
    case NotRunning =>
    case Running =>
    case Paused =>
    case Canceled =>
  }

  /** No two states share a constant. */
  lemma CodeInjective(s: State, t: State)
    ensures Code(s) == Code(t) ==> s == t
  {
    CodeRoundTrip(s);
    CodeRoundTrip(t);
  }
}
