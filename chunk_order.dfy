/**
 * The deterministic order `save_to_chroma` (load_data.py) puts the chunks in
 * before numbering them: Python's stable `sorted` by the key
 * (source, int(page), bool(has_table), int(start)).
 */
module ChunkOrder {
  import opened PyValues
  import MetadataCleaning

  datatype SortKey = SortKey(source: string, page: int, hasTable: bool, start: int)

  /**
   * The sort key of a chunk; None where computing it raises (`int()` of
   * None, of an object or of a non-numeric string) and also where the source
   * is missing or not a str. Python builds such a key without raising, since
   * `get('source')` only returns the value or None; it raises later, and only
   * if a comparison meets that source and one it cannot be ordered against.
   * The model fails on every such source.
   */
  function KeyOf(m: Metadata): Option<SortKey>
  {
    var source := Get(m, "source", PyNone);
    var page := ToInt(Get(m, "page", PyInt(0)));
    var hasTable := Truthy(Get(m, "has_table", PyBool(false)));
    var start := if "start" in m && m["start"] != PyNone then ToInt(m["start"]) else Some(0);
    if source.PyStr? && page.Some? && start.Some? then
      Some(SortKey(source.s, page.value, hasTable, start.value))
    else None
  }

  /** The key's fourth component reads "start", a key the cleaner never keeps: it is always 0. */
  lemma CleanedStartIsZero(m: Metadata)
    requires KeyOf(MetadataCleaning.Cleaned(m)).Some?
    ensures KeyOf(MetadataCleaning.Cleaned(m)).value.start == 0
  {
  }

  /** Python's string order: lexicographic by code point. */
  predicate StrLe(a: string, b: string)
  {
    if a == [] then true
    else if b == [] then false
    else if a[0] != b[0] then a[0] < b[0]
    else StrLe(a[1..], b[1..])
  }

  lemma {:induction false} StrLeTotal(a: string, b: string)
    ensures StrLe(a, b) || StrLe(b, a)
  {
    if a != [] && b != [] && a[0] == b[0] {
      StrLeTotal(a[1..], b[1..]);
    }
  }

  lemma {:induction false} StrLeAntisymmetric(a: string, b: string)
    requires StrLe(a, b) && StrLe(b, a)
    ensures a == b
  {
    if a != [] && b != [] {
      StrLeAntisymmetric(a[1..], b[1..]);
      assert a == [a[0]] + a[1..] && b == [b[0]] + b[1..];
    }
  }

  lemma {:induction false} StrLeTransitive(a: string, b: string, c: string)
    requires StrLe(a, b) && StrLe(b, c)
    ensures StrLe(a, c)
  {
    if a != [] && b != [] && c != [] && a[0] == b[0] == c[0] {
      StrLeTransitive(a[1..], b[1..], c[1..]);
    }
  }

  /** Python's tuple order on keys: lexicographic by component. */
  predicate KeyLe(x: SortKey, y: SortKey)
  {
    if x.source != y.source then StrLe(x.source, y.source)
    else if x.page != y.page then x.page < y.page
    else if x.hasTable != y.hasTable then !x.hasTable
    else x.start <= y.start
  }

  lemma KeyLeTotal(x: SortKey, y: SortKey)
    ensures KeyLe(x, y) || KeyLe(y, x)
  {
    StrLeTotal(x.source, y.source);
  }

  lemma KeyLeAntisymmetric(x: SortKey, y: SortKey)
    requires KeyLe(x, y) && KeyLe(y, x)
    ensures x == y
  {
    if x.source != y.source {
      StrLeAntisymmetric(x.source, y.source);
    }
  }

  lemma KeyLeTransitive(x: SortKey, y: SortKey, z: SortKey)
    requires KeyLe(x, y) && KeyLe(y, z)
    ensures KeyLe(x, z)
  {
    if x.source != y.source && y.source != z.source {
      StrLeTransitive(x.source, y.source, z.source);
      if x.source == z.source {
        StrLeAntisymmetric(x.source, y.source);
      }
    }
  }

  predicate HasKey(d: Document)
  {
    KeyOf(d.metadata).Some?
  }

  predicate AllHaveKeys(s: seq<Document>)
  {
    forall i :: 0 <= i < |s| ==> HasKey(s[i])
  }

  /** The key of a chunk that has one (an arbitrary fixed key otherwise; the sort is only run when all have one). */
  function Key(d: Document): SortKey
  {
    if HasKey(d) then KeyOf(d.metadata).value else SortKey("", 0, false, 0)
  }

  predicate SortedByKey<T>(s: seq<T>, key: T -> SortKey)
  {
    forall i, j :: 0 <= i < j < |s| ==> KeyLe(key(s[i]), key(s[j]))
  }

  /** The elements of s whose key is k, in their order in s. */
  function WithKey<T>(s: seq<T>, key: T -> SortKey, k: SortKey): seq<T>
  {
    if s == [] then []
    else WithKey(s[..|s| - 1], key, k) + (if key(s[|s| - 1]) == k then [s[|s| - 1]] else [])
  }

  /** Insert x behind every element whose key is not greater: the step of a stable insertion sort. */
  function Insert<T>(s: seq<T>, x: T, key: T -> SortKey): (r: seq<T>)
    ensures |r| == |s| + 1
    ensures multiset(r) == multiset(s) + multiset{x}
  {
    if s == [] then [x]
    else if KeyLe(key(s[|s| - 1]), key(x)) then s + [x]
    else
      assert s == s[..|s| - 1] + [s[|s| - 1]];
      Insert(s[..|s| - 1], x, key) + [s[|s| - 1]]
  }

  /** A stable sort by key (what `sorted(chunks, key=...)` computes). */
  function Sort<T>(s: seq<T>, key: T -> SortKey): (r: seq<T>)
    ensures |r| == |s|
    ensures multiset(r) == multiset(s)
  {
    if s == [] then []
    else
      assert s == s[..|s| - 1] + [s[|s| - 1]];
      Insert(Sort(s[..|s| - 1], key), s[|s| - 1], key)
  }

  /** Every element of r is in s or is x. */
  lemma InsertFrom<T>(s: seq<T>, x: T, key: T -> SortKey, i: nat)
    requires i < |Insert(s, x, key)|
    ensures Insert(s, x, key)[i] == x || exists j :: 0 <= j < |s| && s[j] == Insert(s, x, key)[i]
  {
    var r := Insert(s, x, key);
    assert r[i] in multiset(r);
    if r[i] != x {
      assert r[i] in multiset(s);
      assert r[i] in s;
    }
  }

  lemma {:induction false} InsertSorted<T>(s: seq<T>, x: T, key: T -> SortKey)
    requires SortedByKey(s, key)
    ensures SortedByKey(Insert(s, x, key), key)
  {
    if s != [] {
      var last := s[|s| - 1];
      var init := s[..|s| - 1];
      if KeyLe(key(last), key(x)) {
        forall i | 0 <= i < |s| ensures KeyLe(key(s[i]), key(x)) {
          if i < |s| - 1 {
            KeyLeTransitive(key(s[i]), key(last), key(x));
          }
        }
      } else {
        KeyLeTotal(key(last), key(x));
        assert SortedByKey(init, key);
        InsertSorted(init, x, key);
        var r := Insert(init, x, key);
        forall i | 0 <= i < |r| ensures KeyLe(key(r[i]), key(last)) {
          InsertFrom(init, x, key, i);
        }
        assert Insert(s, x, key) == r + [last];
      }
    }
  }

  /** Sort returns its input ordered by key. */
  lemma {:induction false} SortSorted<T>(s: seq<T>, key: T -> SortKey)
    ensures SortedByKey(Sort(s, key), key)
  {
    if s != [] {
      SortSorted(s[..|s| - 1], key);
      InsertSorted(Sort(s[..|s| - 1], key), s[|s| - 1], key);
    }
  }

  lemma {:induction false} InsertStable<T>(s: seq<T>, x: T, key: T -> SortKey, k: SortKey)
    ensures WithKey(Insert(s, x, key), key, k) == WithKey(s, key, k) + (if key(x) == k then [x] else [])
  {
    if s == [] {
      assert WithKey([x], key, k) == WithKey([], key, k) + (if key(x) == k then [x] else []);
    } else if KeyLe(key(s[|s| - 1]), key(x)) {
      assert (s + [x])[..|s|] == s;
    } else {
      var last := s[|s| - 1];
      var init := s[..|s| - 1];
      InsertStable(init, x, key, k);
      var r := Insert(init, x, key) + [last];
      assert r[..|r| - 1] == Insert(init, x, key);
    }
  }

  /** Sort is stable: elements with equal keys keep their relative order. */
  lemma {:induction false} SortStable<T>(s: seq<T>, key: T -> SortKey, k: SortKey)
    ensures WithKey(Sort(s, key), key, k) == WithKey(s, key, k)
  {
    if s != [] {
      SortStable(s[..|s| - 1], key, k);
      InsertStable(Sort(s[..|s| - 1], key), s[|s| - 1], key, k);
    }
  }

  /** `sorted(chunks, key=...)`, or None where some chunk has no model key. */
  function SortChunks(chunks: seq<Document>): Option<seq<Document>>
  {
    if AllHaveKeys(chunks) then Some(Sort(chunks, Key)) else None
  }

  /**
   * The sort succeeds exactly when every chunk has a key, and then returns
   * a permutation of its input, ordered by key, that keeps the input order
   * among chunks with equal keys.
   */
  lemma SortChunksSpec(chunks: seq<Document>)
    ensures SortChunks(chunks).Some? <==> AllHaveKeys(chunks)
    ensures SortChunks(chunks).Some? ==>
      var r := SortChunks(chunks).value;
      && multiset(r) == multiset(chunks)
      && AllHaveKeys(r)
      && SortedByKey(r, Key)
      && forall k :: WithKey(r, Key, k) == WithKey(chunks, Key, k)
  {
    if AllHaveKeys(chunks) {
      var r := Sort(chunks, Key);
      SortSorted(chunks, Key);
      forall k ensures WithKey(r, Key, k) == WithKey(chunks, Key, k) {
        SortStable(chunks, Key, k);
      }
      forall i | 0 <= i < |r| ensures HasKey(r[i]) {
        assert r[i] in multiset(chunks);
      }
    }
  }
}
