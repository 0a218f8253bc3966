/**
 * The retry loop the three command use cases share: up to three `RWTx`
 * attempts, a new one only after an OptimisticLock error, and a single
 * presenter call with the final result.
 *
 * An attempt is a function from the state its transaction sees to the
 * state it leaves and its outcome; each use case supplies its own (with the
 * rollback of an aborted attempt already applied).
 */
module CommandRetry {
  import opened Common
  import opened Event
  import opened CommandPorts

  /** `maxRetries := 3`. */
  const MaxRetries: nat := 3

  /**
   * How one transaction ends: committed, with what the closure assigned to
   * the captured `aggregateID`, `version` and `events`, or aborted with the
   * closure's error.
   */
  datatype Outcome =
    | Committed(aggregateID: string, version: int, events: seq<Event>)
    | Aborted(err: Error)

  /** `errors.IsCode(err, errors.OptimisticLock)`. */
  predicate Retryable(o: Outcome) {
    o.Aborted? && o.err.code == OptimisticLock
  }

  /**
   * The loop from attempt number `attempt` on: the final state, the final
   * outcome and how many attempts were made in all.
   */
  function RetryFrom<W>(attempt: nat, w: W, tx: W -> (W, Outcome)): (W, Outcome, nat)
    requires attempt < MaxRetries
    decreases MaxRetries - attempt
  {
    var (w1, o) := tx(w);
    if Retryable(o) && attempt < MaxRetries - 1 then RetryFrom(attempt + 1, w1, tx)
    else (w1, o, attempt + 1)
  }

  /** One turn of the loop: after an attempt from `w`, either the next attempt or the end. */
  lemma RetryStep<W>(attempt: nat, w: W, tx: W -> (W, Outcome), w1: W, o: Outcome)
    requires attempt < MaxRetries && tx(w) == (w1, o)
    ensures Retryable(o) && attempt < MaxRetries - 1 ==> RetryFrom(attempt, w, tx) == RetryFrom(attempt + 1, w1, tx)
    ensures !(Retryable(o) && attempt < MaxRetries - 1) ==> RetryFrom(attempt, w, tx) == (w1, o, attempt + 1)
  {
  }

  /** The whole `for attempt := range maxRetries` loop. */
  function Run<W>(w: W, tx: W -> (W, Outcome)): (W, Outcome, nat) {
    RetryFrom(0, w, tx)
  }

  /** What the presenter is shown once the loop has ended. */
  function Presented(o: Outcome): Presentation {
    match o
    case Committed(aggregateID, version, events) => PresentedSuccess(aggregateID, version, events)
    case Aborted(err) => PresentedError(err)
  }

  /**
   * Between one and three attempts are made; an OptimisticLock error is
   * only ever reported after the third; an attempt that commits or fails
   * with any other error is the last one.
   */
  lemma {:induction false} RetryBounds<W>(attempt: nat, w: W, tx: W -> (W, Outcome))
    requires attempt < MaxRetries
    ensures var r := RetryFrom(attempt, w, tx);
      && attempt < r.2 <= MaxRetries
      && (Retryable(r.1) ==> r.2 == MaxRetries)
      && (!Retryable(tx(w).1) ==> r == (tx(w).0, tx(w).1, attempt + 1))
    decreases MaxRetries - attempt
  {
    var (w1, o) := tx(w);
    if Retryable(o) && attempt < MaxRetries - 1 {
      RetryBounds(attempt + 1, w1, tx);
    }
  }

  /**
   * A second attempt happens exactly when the first one hit an
   * OptimisticLock error, and it starts from the state the first one left.
   */
  lemma RetryOnlyOnLock<W>(w: W, tx: W -> (W, Outcome))
    ensures Run(w, tx).2 > 1 <==> Retryable(tx(w).1)
    ensures Retryable(tx(w).1) ==> Run(w, tx) == RetryFrom(1, tx(w).0, tx)
  {
    RetryBounds(0, w, tx);
    if Retryable(tx(w).1) {
      RetryBounds(1, tx(w).0, tx);
    }
  }

  /**
   * A property of the state that every aborted attempt keeps holds after a
   * loop that ends in an error.
   */
  lemma {:induction false} AbortedRunKeeps<W(!new)>(attempt: nat, w: W, tx: W -> (W, Outcome), keep: W -> bool)
    requires attempt < MaxRetries
    requires keep(w)
    requires forall v :: keep(v) && tx(v).1.Aborted? ==> keep(tx(v).0)
    ensures RetryFrom(attempt, w, tx).1.Aborted? ==> keep(RetryFrom(attempt, w, tx).0)
    decreases MaxRetries - attempt
  {
    var (w1, o) := tx(w);
    if Retryable(o) && attempt < MaxRetries - 1 {
      AbortedRunKeeps(attempt + 1, w1, tx, keep);
    }
  }

  /**
   * A loop that commits ends with one committing attempt, made from a state
   * that every earlier (aborted) attempt left satisfying `keep`: whatever
   * every such committing attempt guarantees holds of the loop's result.
   */
  lemma {:induction false} CommittedRunSatisfies<W(!new)>(attempt: nat, w: W, tx: W -> (W, Outcome),
                                                        keep: W -> bool, done: (W, Outcome) -> bool)
    requires attempt < MaxRetries
    requires keep(w)
    requires forall v :: keep(v) && tx(v).1.Aborted? ==> keep(tx(v).0)
    requires forall v :: keep(v) && tx(v).1.Committed? ==> done(tx(v).0, tx(v).1)
    ensures var r := RetryFrom(attempt, w, tx);
      r.1.Committed? ==> done(r.0, r.1)
    decreases MaxRetries - attempt
  {
    var (w1, o) := tx(w);
    if Retryable(o) && attempt < MaxRetries - 1 {
      CommittedRunSatisfies(attempt + 1, w1, tx, keep, done);
    }
  }
}
