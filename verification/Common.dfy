/** Small shared vocabulary. */
module Common {

  datatype Option<+T> = None | Some(value: T)

  /** How a call to Redis, Postgres or R2 can end: it takes effect and reports success, it does
      nothing and reports an error, or it takes effect and its answer is lost. */
  datatype Outcome = Ok | Failed | FailedAfterEffect {
    predicate TookEffect() { this != Failed }
  }

  lemma {:induction false} Regroup<T>(a: seq<T>, b: seq<T>, c: seq<T>)
    ensures a + b + c == a + (b + c)
  {
  }

  function Max(a: int, b: int): int {
    if a < b then b else a
  }

  function Min(a: int, b: int): int {
    if a < b then a else b
  }
}
