/**
 What a caller may see of a storage call that the database or its connection can break off.
 A call is one START TRANSACTION ... COMMIT, or one statement that commits by itself.
 */
module Transactions {
  import opened Base

  /** The codes of a lost connection, a timeout or a failed statement: never the codes by
      which a call reports what it found in the tables. */
  type StorageError = e: ErrorCode | e != Ok && e != NotFound && e != AlreadyExists witness IoError

  /** `Broken(k, ..)`: the k-th statement of the call fails, and the rest is rolled back.
      `CommitLost(.., applied)`: the commit reports an error, applied or not. */
  datatype Fault =
    | NoFault
    | Broken(at: nat, error: StorageError)
    | CommitLost(error: StorageError, applied: bool)

  predicate Breaks(fault: Fault, at: nat) {
    fault.Broken? && fault.at == at
  }

  /** The tables after a commit. */
  function Committed<T>(before: T, after: T, fault: Fault): (t: T) {
    if fault.CommitLost? && !fault.applied then before else after
  }

  datatype Effect<V, T> = Effect(value: V, tables: T)

  /** `intended` says what the call does when nothing fails.  All or nothing, whatever fails. */
  ghost predicate Outcome<V, T>(before: T, intended: Result<Effect<V, T>>, fault: Fault, after: T, r: Result<V>) {
    && (r.Success? ==> intended == Success(Effect(r.value, after)))
    && (r.Failure? ==>
          || after == before
          || (fault.CommitLost? && intended.Success? && after == intended.value.tables))
    && (r.Failure? ==>
          || (intended.Failure? && r.error == intended.error)
          || (!fault.NoFault? && r.error == fault.error))
    && (intended.Failure? ==> r.Failure?)
    && (fault.NoFault? && intended.Success? ==> r.Success?)
  }

  /** The same, as a function of the fault: what a step of a run does with its call. */
  function Perform<V, T>(before: T, intended: Result<Effect<V, T>>, fault: Fault): (p: (T, Result<V>)) {
    if fault.Broken? then (before, Failure(fault.error))
    else if intended.Failure? then (before, Failure(intended.error))
    else if fault.CommitLost? then (Committed(before, intended.value.tables, fault), Failure(fault.error))
    else (intended.value.tables, Success(intended.value.value))
  }

  /** Every outcome a call can have is one a step can have. */
  lemma OutcomesArePerformed<V, T>(before: T, intended: Result<Effect<V, T>>, fault: Fault, after: T, r: Result<V>)
    requires Outcome(before, intended, fault, after, r)
    ensures exists f :: Perform(before, intended, f) == (after, r)
  {
    if r.Success? || (intended.Failure? && r.error == intended.error) {
      assert Perform(before, intended, NoFault) == (after, r);
    } else if after == before {
      assert Perform(before, intended, Broken(0, fault.error)) == (after, r);
    } else {
      assert Perform(before, intended, CommitLost(fault.error, true)) == (after, r);
    }
  }
}
