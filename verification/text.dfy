/** Python's substring test `needle in hay` on `str`. */
module Text {

  /** `needle` occurs in `hay` starting at index `i`. */
  ghost predicate OccursAt(needle: string, hay: string, i: int) {
    0 <= i && i + |needle| <= |hay| && hay[i..i + |needle|] == needle
  }

  /** The reference meaning of `needle in hay`. */
  ghost predicate IsSubstring(needle: string, hay: string) {
    exists i :: OccursAt(needle, hay, i)
  }

  /** Scans `hay` from `start` for an occurrence of `needle`. */
  function ContainsFrom(needle: string, hay: string, start: nat): (r: bool)
    ensures r <==> exists i :: start <= i && OccursAt(needle, hay, i)
    decreases |hay| - start
  {
    if start + |needle| > |hay| then false
    else if hay[start..start + |needle|] == needle then
      assert OccursAt(needle, hay, start);
      true
    else ContainsFrom(needle, hay, start + 1)
  }

  /** `needle in hay`. */
  function Contains(needle: string, hay: string): (r: bool)
    ensures r <==> IsSubstring(needle, hay)
  {
    ContainsFrom(needle, hay, 0)
  }

  /** The empty string is in every string, which is why an empty
      collection name would match any listing. */
  lemma EmptyNeedleAlwaysFound(hay: string)
    ensures Contains("", hay)
  {
    assert OccursAt("", hay, 0);
  }

  /** Substring matching is not name matching: a name that is only part of
      a longer listed name is still found. */
  lemma PartOfLongerNameFound(name: string, before: string, after: string)
    ensures Contains(name, before + name + after)
  {
    var hay := before + name + after;
    assert hay[|before|..|before| + |name|] == name;
    assert OccursAt(name, hay, |before|);
  }
}
