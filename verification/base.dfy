/** Values shared by the database rows, the cluster and GitHub. */
module Base {

  datatype Option<+T> = None | Some(value: T)

  /** SQL COALESCE of two columns. */
  function Coalesce<T>(first: Option<T>, second: Option<T>): Option<T> {
    if first.Some? then first else second
  }

  /** SQL COALESCE ending in a non-null default such as now(). */
  function Or<T>(first: Option<T>, default: T): T {
    if first.Some? then first.value else default
  }

  function Max(a: int, b: int): int { if a >= b then a else b }

  lemma SubsetCount<T>(a: set<T>, b: set<T>)
    requires a <= b
    ensures |a| <= |b|
  {
    assert b == a + (b - a);
  }

  /** GitHub's numeric ids for jobs, entities, installations and runners. */
  datatype Id = Id(number: int)

  /** status_enum */
  datatype Status = Pending | Running | Completed | Failed {
    predicate Active() { Pending? || Running? }
  }

  /** The two values ParseEntityType accepts; other text is `None` in a row. */
  datatype EntityType = Organization | User

  /** An empty provider means any vendor; an empty board is no selector at all. */
  datatype NodeSelector = NodeSelector(board: string, provider: string) {
    predicate Valid() { board != "" }
    predicate ProviderBound() { board != "" && provider != "" }
  }
}
