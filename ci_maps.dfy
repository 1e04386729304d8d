// Spring's LinkedCaseInsensitiveMap as the core uses it: entries are put in
// order, a key that equals an earlier one ignoring case replaces it, and
// lookups ignore case. Only the values are ever read back, so the map is
// kept keyed by the lower-cased name.
module CiMaps {
  import opened Wrappers
  import opened Strings

  /** The position of the last entry whose name equals `k` ignoring case. */
  function LastMatchIndex<V>(es: seq<(string, V)>, k: string): (r: Option<nat>)
    ensures r.Some? ==> r.value < |es| && EqualsIgnoreCase(es[r.value].0, k)
    ensures r.Some? ==> forall j :: r.value < j < |es| ==> !EqualsIgnoreCase(es[j].0, k)
    ensures r.None? ==> forall j :: 0 <= j < |es| ==> !EqualsIgnoreCase(es[j].0, k)
  {
    if |es| == 0 then None
    else if EqualsIgnoreCase(es[|es| - 1].0, k) then Some(|es| - 1)
    else LastMatchIndex(es[..|es| - 1], k)
  }

  /** `put(k, v)` on a case-insensitive map. */
  function CiPut<V>(m: map<string, V>, k: string, v: V): map<string, V>
  {
    m[Lower(k) := v]
  }

  /** `putAll(es)`: one put per entry, in order. */
  function CiPutAll<V>(m: map<string, V>, es: seq<(string, V)>): map<string, V>
  {
    if |es| == 0 then m
    else CiPut(CiPutAll(m, es[..|es| - 1]), es[|es| - 1].0, es[|es| - 1].1)
  }

  /** `get(k)` on a case-insensitive map; None for an absent key. */
  function CiGet<V>(m: map<string, V>, k: string): Option<V>
  {
    if Lower(k) in m then Some(m[Lower(k)]) else None
  }

  /** After `putAll`, a lookup finds the last entry matching ignoring case,
   *  and falls back to what the map held before only when none matches. */
  lemma {:induction false} CiPutAllGet<V>(m: map<string, V>, es: seq<(string, V)>, k: string)
    ensures CiGet(CiPutAll(m, es), k) ==
            (match LastMatchIndex(es, k)
             case Some(i) => Some(es[i].1)
             case None => CiGet(m, k))
  {
    if |es| > 0 {
      var init := es[..|es| - 1];
      CiPutAllGet(m, init, k);
      if !EqualsIgnoreCase(es[|es| - 1].0, k) {
        assert LastMatchIndex(es, k) == LastMatchIndex(init, k);
        assert init[..] == init;
        var last := es[|es| - 1].0;
        assert Lower(last) != Lower(k);
        match LastMatchIndex(init, k)
        case Some(i) => assert es[i] == init[i];
        case None =>
      }
    }
  }

  /** The names of a `putAll` are those of the map and the entries, folded. */
  lemma {:induction false} CiPutAllKeys<V>(m: map<string, V>, es: seq<(string, V)>)
    ensures CiPutAll(m, es).Keys == m.Keys + set e | e in es :: Lower(e.0)
  {
    if |es| > 0 {
      CiPutAllKeys(m, es[..|es| - 1]);
      assert es == es[..|es| - 1] + [es[|es| - 1]];
    }
  }
}
