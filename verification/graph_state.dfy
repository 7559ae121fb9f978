/**
 * The shared state of a workflow graph: a dictionary from the state's declared
 * key names to values, and the partial updates that nodes return.
 */
module GraphState {
  import opened Stories

  /** What a state key may hold: text, or the structured story list. */
  datatype Value = Text(text: string) | Structured(stories: UserStories)

  /** A state, or a node's partial update: only the keys it holds are present. */
  type State = map<string, Value>

  /** Python truthiness of a state value: an empty string is false, any object is true. */
  predicate Truthy(v: Value) {
    match v
    case Text(t) => t != ""
    case Structured(_) => true
  }

  /**
   * Applying a node's partial update with the overwrite reducer every graph here uses:
   * each key of the update replaces the old value, every other key is kept.
   */
  function Merge(s: State, u: State): (r: State)
    ensures r.Keys == s.Keys + u.Keys
    ensures forall k :: k in u ==> r[k] == u[k]
    ensures forall k :: k in s && k !in u ==> r[k] == s[k]
  {
    s + u
  }

  /** An update with no keys changes nothing. */
  lemma MergeEmpty(s: State)
    ensures Merge(s, map[]) == s
  {
  }
}
