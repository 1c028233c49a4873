/**
 * The search boxes of the Service screens: a task stays in view when any of
 * a fixed list of its fields contains the search term, both lower-cased
 * (`field.toLowerCase().includes(term.toLowerCase())` joined with `||`).
 */
module Search {
  import opened Seqs
  import opened Text

  /** Some field of the list contains the term, ignoring case. */
  predicate AnyFieldMatches(fields: seq<string>, term: string)
  {
    exists k :: 0 <= k < |fields| && ContainsIgnoringCase(fields[k], term)
  }

  /**
   * The tasks some field of which matches, in their original order: exactly
   * the matching ones are kept.
   */
  function SearchBy<T>(ts: seq<T>, fields: T -> seq<string>, term: string): (r: seq<T>)
    ensures IsSubsequence(r, ts)
    ensures forall i :: 0 <= i < |r| ==> AnyFieldMatches(fields(r[i]), term)
    ensures forall i :: 0 <= i < |ts| && AnyFieldMatches(fields(ts[i]), term) ==> ts[i] in r
  {
    FilterIsSubsequence(ts, t => AnyFieldMatches(fields(t), term));
    Filter(ts, t => AnyFieldMatches(fields(t), term))
  }

  /** The empty term matches every field, so with at least one field per task nothing is hidden. */
  lemma EmptyTermKeepsAll<T>(ts: seq<T>, fields: T -> seq<string>)
    requires forall i :: 0 <= i < |ts| ==> |fields(ts[i])| >= 1
    ensures SearchBy(ts, fields, "") == ts
  {
    assert Lower("") == "";
    forall i | 0 <= i < |ts| ensures AnyFieldMatches(fields(ts[i]), "") {
      IncludesEmpty(Lower(fields(ts[i])[0]));
    }
    FilterAll(ts, t => AnyFieldMatches(fields(t), ""));
  }
}
