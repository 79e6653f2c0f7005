/**
 * String dictionaries built entry by entry, as `if (value) dictionary[key] = value` does: an entry
 * whose text is empty is skipped.
 */
module Dictionaries {

  /** `if (value) dictionary[key] = value` */
  function Put(m: map<string, string>, key: string, value: string): map<string, string>
  {
    if value != "" then m[key := value] else m
  }

  /** The dictionary built by writing `entries` in order, each only when its text is non-empty. */
  function Written(entries: seq<(string, string)>): map<string, string>
  {
    if entries == [] then map[]
    else Put(Written(entries[..|entries| - 1]), entries[|entries| - 1].0, entries[|entries| - 1].1)
  }

  /** The names of `entries`, in order. */
  function Names(entries: seq<(string, string)>): seq<string>
  {
    seq(|entries|, i requires 0 <= i < |entries| => entries[i].0)
  }

  predicate DistinctNames(entries: seq<(string, string)>)
  {
    forall i, j :: 0 <= i < j < |entries| ==> entries[i].0 != entries[j].0
  }

  /** Writing distinctly named entries: the dictionary holds exactly the names whose text is non-empty. */
  lemma {:induction false} WrittenSpec(entries: seq<(string, string)>, k: string)
    requires DistinctNames(entries)
    ensures k in Written(entries) <==> exists i :: 0 <= i < |entries| && entries[i].0 == k && entries[i].1 != ""
    ensures forall i :: 0 <= i < |entries| && entries[i].0 == k && entries[i].1 != "" ==> Written(entries)[k] == entries[i].1
  {
    if entries != [] {
      var n := |entries| - 1;
      var front := entries[..n];
      WrittenSpec(front, k);
      assert forall i :: 0 <= i < n ==> front[i] == entries[i];
      if k != entries[n].0 && k in Written(entries) {
        var i :| 0 <= i < n && front[i].0 == k && front[i].1 != "";
        assert entries[i].0 == k && entries[i].1 != "";
      }
    }
  }

  /** One more entry written after `entries`. */
  lemma WrittenSnoc(entries: seq<(string, string)>, n: nat)
    requires n < |entries|
    ensures Written(entries[..n + 1]) == Put(Written(entries[..n]), entries[n].0, entries[n].1)
  {
    assert entries[..n + 1][..n] == entries[..n];
  }
}
