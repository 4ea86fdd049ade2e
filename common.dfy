/** Shared vocabulary: optional values, the three outcomes of a single-row
    database query, and quotas that may be unbounded. */
module Common {

  datatype Option<+T> = None | Some(value: T) {
    function GetOr(default: T): T {
      match this
      case Some(v) => v
      case None => default
    }
  }

  /** What a `.single()` query of the database client hands back: the row,
      the "no rows returned" error (PostgREST code PGRST116), or any other
      error (a thrown exception is folded into `Failed`). */
  datatype QueryResult<+T> = Row(row: T) | NoRows | Failed

  /** A quota. The source writes an unbounded quota as the number Infinity;
      here it is a constructor of its own, so it can never be miscompared. */
  datatype Limit = Finite(n: nat) | Unbounded {
    /** `x < this`, with Infinity above every number. */
    predicate Admits(x: nat) {
      Unbounded? || x < n
    }

    /** `x <= this`: a count that has not gone past the quota. */
    predicate Bounds(x: nat) {
      Unbounded? || x <= n
    }

    /** `max(0, this - 1)`, with Infinity - 1 = Infinity. */
    function Decremented(): (l: Limit)
      ensures Unbounded? <==> l.Unbounded?
      ensures Finite? ==> l.n == if n == 0 then 0 else n - 1
    {
      if Unbounded? then Unbounded else Finite(Max(0, n - 1))
    }
  }

  /** JavaScript truthiness of an optional string: present and non-empty. */
  predicate Truthy(s: Option<string>) {
    s.Some? && s.value != ""
  }

  function Max(a: int, b: int): int { if a < b then b else a }

  function Min(a: int, b: int): int { if a < b then a else b }
}
