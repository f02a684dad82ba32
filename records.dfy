/**
 * Schema-less rows. A requisition and the `datos_completos` snapshot of an
 * approval are JSON objects with a few fixed fields and any number of extra
 * ones; the detail panels list the extra ones generically, in
 * `Object.entries` order.
 */
module Records {
  import opened Seqs

  /** A JSON value as the detail panels print it. */
  datatype Value = Str(s: string) | Number(n: int) | Flag(b: bool) | Null

  /** The entries of a JSON object, in property order; keys are distinct. */
  type Entries = seq<(string, Value)>

  function Keys(entries: Entries): (ks: seq<string>)
    ensures |ks| == |entries|
    ensures forall i :: 0 <= i < |entries| ==> ks[i] == entries[i].0
  {
    seq(|entries|, i requires 0 <= i < |entries| => entries[i].0)
  }

  predicate NotHidden(hidden: set<string>, e: (string, Value)) {
    e.0 !in hidden
  }

  /**
   * `Object.entries(o).filter(([key]) => !hidden.includes(key))`: the entries
   * a details grid shows.
   */
  function Visible(entries: Entries, hidden: set<string>): (r: Entries)
    ensures forall e :: e in r ==> e in entries && e.0 !in hidden
    ensures forall e :: e in entries && e.0 !in hidden ==> e in r
    ensures Subsequence(r, entries)
    ensures forall e :: multiset(r)[e] == if e.0 in hidden then 0 else multiset(entries)[e]
  {
    FilterIsSubsequence(entries, e => NotHidden(hidden, e));
    FilterCounts(entries, e => NotHidden(hidden, e));
    Filter(entries, e => NotHidden(hidden, e))
  }

  /** The grid shows exactly the keys of the object that are not hidden. */
  lemma VisibleKeys(entries: Entries, hidden: set<string>)
    ensures forall k :: k in Keys(Visible(entries, hidden)) <==> k in Keys(entries) && k !in hidden
  {
    var r := Visible(entries, hidden);
    forall k ensures k in Keys(r) <==> k in Keys(entries) && k !in hidden {
      if k in Keys(r) {
        var i :| 0 <= i < |r| && Keys(r)[i] == k;
        assert r[i] in entries;
        var j :| 0 <= j < |entries| && entries[j] == r[i];
        assert Keys(entries)[j] == k;
      }
      if k in Keys(entries) && k !in hidden {
        var j :| 0 <= j < |entries| && Keys(entries)[j] == k;
        assert entries[j] in r;
        var i :| 0 <= i < |r| && r[i] == entries[j];
        assert Keys(r)[i] == k;
      }
    }
  }

  /** When no extra key collides with a hidden one, the grid shows the extra entries as they are. */
  lemma VisibleKeepsUnhidden(entries: Entries, hidden: set<string>)
    requires forall e :: e in entries ==> e.0 !in hidden
    ensures Visible(entries, hidden) == entries
  {
    FilterKeepsAll(entries, e => NotHidden(hidden, e));
  }
}
