/** The loosely typed values that travel between the browser and the backend:
    a client-supplied assessment-results object (a JSON object of subscale
    entries, each optionally carrying a "score" and a "level") and the
    {title, description} recommendation records. */
module Payload {

  datatype Option<+T> = None | Some(value: T) {
    function GetOr(default: T): T
    {
      match this
      case Some(v) => v
      case None => default
    }
  }

  /** One subscale entry of a results object; either key may be missing. */
  datatype Entry = Entry(score: Option<int>, level: Option<string>)

  /** The keys of a dictionary are pairwise distinct. */
  ghost predicate DistinctKeys<V>(items: seq<(string, V)>)
  {
    forall i, j :: 0 <= i < j < |items| ==> items[i].0 != items[j].0
  }

  /** A results dictionary in insertion order (Python dicts keep it). */
  type Dict = items: seq<(string, Entry)> | DistinctKeys(items)

  /** `d.get(key)`. */
  function Get(d: seq<(string, Entry)>, key: string): (r: Option<Entry>)
    ensures r.None? <==> forall i :: 0 <= i < |d| ==> d[i].0 != key
    ensures r.Some? ==> exists i :: 0 <= i < |d| && d[i] == (key, r.value)
  {
    if d == [] then None
    else if d[0].0 == key then Some(d[0].1)
    else
      var r := Get(d[1..], key);
      assert forall i :: 1 <= i < |d| ==> d[i] == d[1..][i - 1];
      r
  }

  /** `d.get(key, {}).get("score", 0)`: a missing subscale or score reads as 0. */
  function ScoreOr0(d: Dict, key: string): int
  {
    match Get(d, key)
    case None => 0
    case Some(e) => e.score.GetOr(0)
  }

  /** `d.get(key, {}).get("level")`. */
  function LevelOf(d: Dict, key: string): Option<string>
  {
    match Get(d, key)
    case None => None
    case Some(e) => e.level
  }

  /** A recommendation as the backend and the browser exchange it. */
  datatype Recommendation = Recommendation(title: string, description: string)
}
