/**
 * `clean_metadata` (load_data.py): keep the eight canonical keys that are
 * present, pass simple values through and replace any other value by its
 * `str()` text.
 */
module MetadataCleaning {
  import opened PyValues

  /** The canonical metadata keys, in the order the cleaner visits them. */
  const KeepKeys: seq<string> :=
    ["source", "page", "type", "id", "total_pages", "has_table", "used_ocr", "file_type"]

  /** The value the cleaner stores for v. */
  function Normalize(v: Value): Value
  {
    if IsSimple(v) then v else PyStr(ToStr(v))
  }

  /** The cleaned dictionary, as a value. */
  function Cleaned(m: Metadata): Metadata
  {
    map k | k in m && k in KeepKeys :: Normalize(m[k])
  }

  /** A dictionary the cleaner leaves alone: canonical keys and simple values only. */
  predicate IsClean(m: Metadata)
  {
    forall k :: k in m ==> k in KeepKeys && IsSimple(m[k])
  }

  /** The loop of `clean_metadata`, filling a fresh dictionary key by key. */
  method CleanMetadata(metadata: Metadata) returns (cleaned: Metadata)
    ensures forall k :: k in cleaned <==> k in KeepKeys && k in metadata
    ensures forall k :: k in cleaned && IsSimple(metadata[k]) ==> cleaned[k] == metadata[k]
    ensures forall k :: k in cleaned && !IsSimple(metadata[k]) ==> cleaned[k] == PyStr(ToStr(metadata[k]))
    ensures cleaned == Cleaned(metadata)
  {
    cleaned := map[];
    for n := 0 to |KeepKeys|
      invariant forall k :: k in cleaned <==> k in KeepKeys[..n] && k in metadata
      invariant forall k :: k in cleaned ==> cleaned[k] == Normalize(metadata[k])
    {
      var key := KeepKeys[n];
      if key in metadata {
        var value := metadata[key];
        if IsSimple(value) {
          cleaned := cleaned[key := value];
        } else if value != PyNone {
          cleaned := cleaned[key := PyStr(ToStr(value))];
        }
      }
    }
  }

  /** A present None is kept, not dropped. */
  lemma CleanKeepsNone(m: Metadata, k: string)
    requires k in KeepKeys && k in m && m[k] == PyNone
    ensures k in Cleaned(m) && Cleaned(m)[k] == PyNone
  {
  }

  /** Whatever goes in, what comes out is clean. */
  lemma CleanedIsClean(m: Metadata)
    ensures IsClean(Cleaned(m))
  {
  }

  /** A clean dictionary is a fixed point of the cleaner. */
  lemma CleanFixesClean(m: Metadata)
    requires IsClean(m)
    ensures Cleaned(m) == m
  {
  }

  /** Cleaning twice is cleaning once. */
  lemma CleanIdempotent(m: Metadata)
    ensures Cleaned(Cleaned(m)) == Cleaned(m)
  {
    CleanedIsClean(m);
    CleanFixesClean(Cleaned(m));
  }

  /**
   * LangChain's `filter_complex_metadata`, which `save_to_chroma` applies
   * before cleaning: a key survives only when its value is a str, bool,
   * int or float, so None is dropped along with any other object.
   */
  function FilteredComplex(m: Metadata): Metadata
  {
    map k | k in m && IsSimple(m[k]) && !m[k].PyNone? :: m[k]
  }

  /**
   * Filtered and then cleaned, a dictionary keeps exactly its canonical
   * keys with a str, bool, int or float value, unchanged: the cleaner never
   * has to convert a value, and no None is left.
   */
  lemma CleanAfterFilter(m: Metadata)
    ensures forall k :: k in Cleaned(FilteredComplex(m)) <==>
      k in KeepKeys && k in m && IsSimple(m[k]) && !m[k].PyNone?
    ensures forall k :: k in Cleaned(FilteredComplex(m)) ==> Cleaned(FilteredComplex(m))[k] == m[k]
  {
  }

  /** A clean dictionary without None passes the filter and the cleaner unchanged. */
  lemma FilterFixesClean(m: Metadata)
    requires IsClean(m) && forall k :: k in m ==> !m[k].PyNone?
    ensures FilteredComplex(m) == m && Cleaned(FilteredComplex(m)) == m
  {
  }

  /** Writing a string id into a clean dictionary keeps it clean. */
  lemma IdKeepsClean(m: Metadata, id: string)
    requires IsClean(m)
    ensures IsClean(m["id" := PyStr(id)])
  {
  }
}
