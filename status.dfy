// internal/status/status.go: the progress of a task.

module TaskStatus {

  /** `Status` is an unsigned integer in the source; the named values are `iota` constants. */
  newtype Status = x: int | 0 <= x

  const Done: Status := 0
  const InProgress: Status := 1
  const Ready: Status := 2

  /** `Status.Is`: whether two statuses are the same value. */
  predicate Is(s: Status, stat: Status)
  {
    s == stat
  }

  lemma IsReflexive(s: Status)
    ensures Is(s, s)
  {
  }

  /** `Is` is exactly equality, hence symmetric. */
  lemma IsEquality(s: Status, t: Status)
    ensures Is(s, t) <==> s == t
    ensures Is(s, t) <==> Is(t, s)
  {
  }

  /** The three named statuses are distinct, and the zero value of the type is `Done`. */
  lemma NamedStatuses()
    ensures Done != InProgress && InProgress != Ready && Done != Ready
    ensures Done as int == 0 && InProgress as int == 1 && Ready as int == 2
  {
  }
}
