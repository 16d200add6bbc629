/**
 * Adding files to the knowledge base and ingesting again (load_data.py,
 * `save_to_chroma`). For DOCX chunks, a chunk's id depends only on the
 * chunks that share its sort key: the sort is stable, and inside a sorted
 * list the chunk index counts the earlier chunks with the same key. So the
 * chunks of files with other sources do not change a file's ids, and a run
 * over the first files plus extra ones writes exactly the extra files' chunks.
 */
module Additivity {
  import opened PyValues
  import Sequences
  import ChunkOrder
  import ChunkIds
  import ChromaSave
  import UniqueIds

  /** The sources named by the chunks. */
  function Sources(chunks: seq<Document>): set<Value>
  {
    set i | 0 <= i < |chunks| && "source" in chunks[i].metadata :: chunks[i].metadata["source"]
  }

  /** The keys of s, position by position. */
  function KeysBy<T>(s: seq<T>, key: T -> ChunkOrder.SortKey): (ks: seq<ChunkOrder.SortKey>)
    ensures |ks| == |s| && forall i :: 0 <= i < |s| ==> ks[i] == key(s[i])
  {
    seq(|s|, i requires 0 <= i < |s| => key(s[i]))
  }

  /**
   * Every element of s tagged with the number of elements before it that
   * share its key: the numbering that depends only on each key group.
   */
  function Counted<T>(s: seq<T>, key: T -> ChunkOrder.SortKey, tag: (T, nat) -> T): (r: seq<T>)
    ensures |r| == |s|
    ensures forall i :: 0 <= i < |s| ==> r[i] == tag(s[i], |ChunkOrder.WithKey(s[..i], key, key(s[i]))|)
  {
    seq(|s|, i requires 0 <= i < |s| => tag(s[i], |ChunkOrder.WithKey(s[..i], key, key(s[i]))|))
  }

  /** The elements of one key group tagged 0, 1, 2, ... in their order. */
  function NumberGroup<T>(g: seq<T>, tag: (T, nat) -> T): (r: seq<T>)
    ensures |r| == |g| && forall j :: 0 <= j < |g| ==> r[j] == tag(g[j], j)
  {
    seq(|g|, j requires 0 <= j < |g| => tag(g[j], j))
  }

  /** The key groups of a concatenation are the groups of its parts, concatenated. */
  lemma {:induction false} WithKeyAppend<T>(u: seq<T>, v: seq<T>, key: T -> ChunkOrder.SortKey, k: ChunkOrder.SortKey)
    ensures ChunkOrder.WithKey(u + v, key, k) == ChunkOrder.WithKey(u, key, k) + ChunkOrder.WithKey(v, key, k)
  {
    if v == [] {
      assert u + v == u;
    } else {
      var init := v[..|v| - 1];
      WithKeyAppend(u, init, key, k);
      assert (u + v)[..|u + v| - 1] == u + init;
      assert (u + v)[|u + v| - 1] == v[|v| - 1];
    }
  }

  /** No element with key k, no group for k. */
  lemma {:induction false} WithKeyNone<T>(s: seq<T>, key: T -> ChunkOrder.SortKey, k: ChunkOrder.SortKey)
    requires forall i :: 0 <= i < |s| ==> key(s[i]) != k
    ensures ChunkOrder.WithKey(s, key, k) == []
  {
    if s != [] {
      WithKeyNone(s[..|s| - 1], key, k);
    }
  }

  /** The group for k holds every copy of an element with key k and nothing else. */
  lemma {:induction false} WithKeyCount<T>(s: seq<T>, key: T -> ChunkOrder.SortKey, k: ChunkOrder.SortKey, x: T)
    ensures multiset(ChunkOrder.WithKey(s, key, k))[x] == if key(x) == k then multiset(s)[x] else 0
  {
    if s != [] {
      var init := s[..|s| - 1];
      WithKeyCount(init, key, k, x);
      assert s == init + [s[|s| - 1]];
    }
  }

  /** Two lists with the same key groups are permutations of each other. */
  lemma SameGroupsSameMultiset<T>(u: seq<T>, v: seq<T>, key: T -> ChunkOrder.SortKey)
    requires forall k :: ChunkOrder.WithKey(u, key, k) == ChunkOrder.WithKey(v, key, k)
    ensures multiset(u) == multiset(v)
  {
    forall x ensures multiset(u)[x] == multiset(v)[x] {
      WithKeyCount(u, key, key(x), x);
      WithKeyCount(v, key, key(x), x);
    }
  }

  /** Tagging the first n elements does not look past them. */
  lemma CountedPrefix<T>(s: seq<T>, key: T -> ChunkOrder.SortKey, tag: (T, nat) -> T, n: nat)
    requires n <= |s|
    ensures Counted(s, key, tag)[..n] == Counted(s[..n], key, tag)
  {
    forall i | 0 <= i < n ensures Counted(s, key, tag)[i] == Counted(s[..n], key, tag)[i] {
      assert s[..i] == s[..n][..i];
    }
  }

  /** With a tag that keeps keys, every key group of the counted list is that group tagged 0, 1, 2, ... */
  lemma {:induction false} CountedGroups<T>(s: seq<T>, key: T -> ChunkOrder.SortKey, tag: (T, nat) -> T, k: ChunkOrder.SortKey)
    requires forall x, c :: key(tag(x, c)) == key(x)
    ensures ChunkOrder.WithKey(Counted(s, key, tag), key, k) == NumberGroup(ChunkOrder.WithKey(s, key, k), tag)
  {
    if s != [] {
      var n := |s| - 1;
      var init := s[..n];
      var c := Counted(s, key, tag);
      var g := ChunkOrder.WithKey(init, key, k);
      CountedGroups(init, key, tag, k);
      CountedPrefix(s, key, tag, n);
      assert c[n] == tag(s[n], |ChunkOrder.WithKey(init, key, key(s[n]))|);
      assert key(c[n]) == key(s[n]);
      if key(s[n]) == k {
        assert NumberGroup(g + [s[n]], tag) == NumberGroup(g, tag) + [c[n]];
      }
    }
  }

  /** Counting after a stable sort gives the same tagged elements as counting before it. */
  lemma SortedCountedPermutes<T>(x: seq<T>, key: T -> ChunkOrder.SortKey, tag: (T, nat) -> T)
    requires forall y, c :: key(tag(y, c)) == key(y)
    ensures multiset(Counted(ChunkOrder.Sort(x, key), key, tag)) == multiset(Counted(x, key, tag))
  {
    var sorted := ChunkOrder.Sort(x, key);
    forall k ensures ChunkOrder.WithKey(Counted(sorted, key, tag), key, k) == ChunkOrder.WithKey(Counted(x, key, tag), key, k) {
      CountedGroups(sorted, key, tag, k);
      CountedGroups(x, key, tag, k);
      ChunkOrder.SortStable(x, key, k);
    }
    SameGroupsSameMultiset(Counted(sorted, key, tag), Counted(x, key, tag), key);
  }

  /** Two lists that change value at the same positions have the same chunk indices. */
  lemma {:induction false} SameChangesSameIndex<T, U>(x: seq<T>, y: seq<U>, i: nat)
    requires |x| == |y| && i < |x|
    requires forall j :: 0 < j <= i ==> (x[j] == x[j - 1] <==> y[j] == y[j - 1])
    ensures ChunkIds.ChunkIndex(x, i) == ChunkIds.ChunkIndex(y, i)
  {
    if i > 0 {
      SameChangesSameIndex(x, y, i - 1);
      ChunkIds.ChunkIndexStep(x, i);
      ChunkIds.ChunkIndexStep(y, i);
    }
  }

  /** In a sorted list the chunk index counts the earlier elements with the same key. */
  lemma {:induction false} SortedIndex<T>(s: seq<T>, key: T -> ChunkOrder.SortKey, i: nat)
    requires ChunkOrder.SortedByKey(s, key) && i < |s|
    ensures ChunkIds.ChunkIndex(KeysBy(s, key), i) == |ChunkOrder.WithKey(s[..i], key, key(s[i]))|
  {
    var ks := KeysBy(s, key);
    if i == 0 {
      assert s[..0] == [];
    } else {
      ChunkIds.ChunkIndexStep(ks, i);
      if ks[i] == ks[i - 1] {
        SortedIndex(s, key, i - 1);
        SameKeyCountsOn(s, key, i);
      } else {
        NewKeyNotEarlier(s, key, i);
      }
    }
  }

  /** An element with the key of the one before it counts one more earlier element with that key. */
  lemma SameKeyCountsOn<T>(s: seq<T>, key: T -> ChunkOrder.SortKey, i: nat)
    requires 0 < i < |s| && key(s[i]) == key(s[i - 1])
    ensures |ChunkOrder.WithKey(s[..i], key, key(s[i]))| == |ChunkOrder.WithKey(s[..i - 1], key, key(s[i - 1]))| + 1
  {
    assert s[..i][..i - 1] == s[..i - 1];
  }

  /** In a sorted list, where the key changes, no earlier element has the new key. */
  lemma NewKeyNotEarlier<T>(s: seq<T>, key: T -> ChunkOrder.SortKey, i: nat)
    requires ChunkOrder.SortedByKey(s, key) && 0 < i < |s| && key(s[i]) != key(s[i - 1])
    ensures ChunkOrder.WithKey(s[..i], key, key(s[i])) == []
  {
    forall j | 0 <= j < i ensures key(s[..i][j]) != key(s[i]) {
      assert s[..i][j] == s[j];
      if j < i - 1 && key(s[j]) == key(s[i]) {
        ChunkOrder.KeyLeAntisymmetric(key(s[i - 1]), key(s[i]));
        assert false;
      }
    }
    WithKeyNone(s[..i], key, key(s[i]));
  }

  /** When no element of q shares a key with one of p, the tags of q ignore p. */
  lemma CountedAppend<T>(p: seq<T>, q: seq<T>, key: T -> ChunkOrder.SortKey, tag: (T, nat) -> T)
    requires forall i, j :: 0 <= i < |p| && 0 <= j < |q| ==> key(p[i]) != key(q[j])
    ensures Counted(p + q, key, tag) == Counted(p, key, tag) + Counted(q, key, tag)
  {
    var s := p + q;
    forall i | 0 <= i < |s| ensures Counted(s, key, tag)[i] == (Counted(p, key, tag) + Counted(q, key, tag))[i] {
      if i < |p| {
        assert s[..i] == p[..i];
      } else {
        var j := i - |p|;
        assert s[..i] == p + q[..j];
        WithKeyAppend(p, q[..j], key, key(q[j]));
        WithKeyNone(p, key, key(q[j]));
      }
    }
  }

  /** A chunk with the id made of its page id and index c, as `calculate_chunk_ids` writes it. */
  function Label(d: Document, c: nat): Document
  {
    ChunkIds.WithId(d, ChunkIds.ChunkId(ChunkIds.PageId(d.metadata), c))
  }

  /** Writing an id leaves the sort key alone: the key does not read "id". */
  lemma LabelKeepsKey()
    ensures forall d, c :: ChunkOrder.Key(Label(d, c)) == ChunkOrder.Key(d)
  {
    forall d, c ensures ChunkOrder.Key(Label(d, c)) == ChunkOrder.Key(d) {
      var m := d.metadata;
      var m' := Label(d, c).metadata;
      assert Get(m', "source", PyNone) == Get(m, "source", PyNone);
      assert Get(m', "page", PyInt(0)) == Get(m, "page", PyInt(0));
      assert Get(m', "has_table", PyBool(false)) == Get(m, "has_table", PyBool(false));
      assert ("start" in m' && m'["start"] != PyNone) == ("start" in m && m["start"] != PyNone);
      assert "start" in m' ==> m'["start"] == m["start"];
    }
  }

  /** For DOCX chunks the page id changes exactly where the key changes. */
  lemma SameChanges(s: seq<Document>, j: nat)
    requires UniqueIds.AllDocxWithoutStart(s) && 0 < j < |s|
    ensures ChunkIds.PageIds(s)[j] == ChunkIds.PageIds(s)[j - 1]
        <==> KeysBy(s, ChunkOrder.Key)[j] == KeysBy(s, ChunkOrder.Key)[j - 1]
  {
    UniqueIds.KeyAndPageId(s[j]);
    UniqueIds.KeyAndPageId(s[j - 1]);
    if ChunkIds.PageId(s[j].metadata) == ChunkIds.PageId(s[j - 1].metadata) {
      UniqueIds.DocxPageIdInjective(ChunkOrder.Key(s[j]), ChunkOrder.Key(s[j - 1]));
    }
  }

  /** On sorted DOCX chunks, `calculate_chunk_ids` is the counted numbering. */
  lemma NumberedIsCounted(s: seq<Document>)
    requires UniqueIds.AllDocxWithoutStart(s) && ChunkOrder.SortedByKey(s, ChunkOrder.Key)
    ensures ChunkIds.WithChunkIds(s) == Counted(s, ChunkOrder.Key, Label)
  {
    var ids := ChunkIds.PageIds(s);
    var ks := KeysBy(s, ChunkOrder.Key);
    forall j | 0 < j < |s| ensures ids[j] == ids[j - 1] <==> ks[j] == ks[j - 1] {
      SameChanges(s, j);
    }
    forall i | 0 <= i < |s| ensures ChunkIds.WithChunkIds(s)[i] == Counted(s, ChunkOrder.Key, Label)[i] {
      SameChangesSameIndex(ids, ks, i);
      SortedIndex(s, ChunkOrder.Key, i);
    }
  }

  /** Numbering DOCX chunks gives, up to order, their counted numbering in input order. */
  lemma NumberedCounts(chunks: seq<Document>)
    requires UniqueIds.AllDocx(chunks)
    ensures ChromaSave.Numbered(chunks).Some?
    ensures multiset(ChromaSave.Numbered(chunks).value) == multiset(Counted(ChromaSave.Prepared(chunks), ChunkOrder.Key, Label))
  {
    var prepared := ChromaSave.Prepared(chunks);
    UniqueIds.CleanAllDocx(chunks);
    ChunkOrder.SortChunksSpec(prepared);
    var sorted := ChunkOrder.SortChunks(prepared).value;
    UniqueIds.PermutationKeepsDocx(sorted, prepared);
    NumberedIsCounted(sorted);
    LabelKeepsKey();
    SortedCountedPermutes(prepared, ChunkOrder.Key, Label);
  }

  lemma PreparedAppend(a: seq<Document>, b: seq<Document>)
    ensures ChromaSave.Prepared(a + b) == ChromaSave.Prepared(a) + ChromaSave.Prepared(b)
  {
    var ab := ChromaSave.Prepared(a + b);
    var sum := ChromaSave.Prepared(a) + ChromaSave.Prepared(b);
    forall i | 0 <= i < |ab| ensures ab[i] == sum[i] {
      if i >= |a| {
        assert (a + b)[i] == b[i - |a|];
      }
    }
  }

  /** A prepared DOCX chunk's key names the chunk's own source. */
  lemma PreparedSource(chunks: seq<Document>, i: nat)
    requires UniqueIds.AllDocx(chunks) && i < |chunks|
    ensures ChunkOrder.Key(ChromaSave.Prepared(chunks)[i]).source == chunks[i].metadata["source"].s
  {
    UniqueIds.CleanAllDocx(chunks);
    ChromaSave.PreparedSpec(chunks, i);
    UniqueIds.KeyOfDocx(ChromaSave.Prepared(chunks)[i].metadata);
  }

  /** Counted chunks with different sources have different ids. */
  lemma IdsApart(p: seq<Document>, q: seq<Document>, i: nat, j: nat)
    requires UniqueIds.AllDocxWithoutStart(p) && UniqueIds.AllDocxWithoutStart(q)
    requires i < |p| && j < |q|
    requires ChunkOrder.Key(p[i]).source != ChunkOrder.Key(q[j]).source
    ensures Counted(p, ChunkOrder.Key, Label)[i].metadata["id"] != Counted(q, ChunkOrder.Key, Label)[j].metadata["id"]
  {
    UniqueIds.KeyAndPageId(p[i]);
    UniqueIds.KeyAndPageId(q[j]);
    var pi, ci := ChunkIds.PageId(p[i].metadata), |ChunkOrder.WithKey(p[..i], ChunkOrder.Key, ChunkOrder.Key(p[i]))|;
    var pj, cj := ChunkIds.PageId(q[j].metadata), |ChunkOrder.WithKey(q[..j], ChunkOrder.Key, ChunkOrder.Key(q[j]))|;
    if ChunkIds.ChunkId(pi, ci) == ChunkIds.ChunkId(pj, cj) {
      ChunkIds.ChunkIdInjective(pi, ci, pj, cj);
      UniqueIds.DocxPageIdInjective(ChunkOrder.Key(p[i]), ChunkOrder.Key(q[j]));
      assert false;
    }
  }

  /** No chunk of `first` has the id of a chunk of `extra`. */
  predicate NoSharedIds(first: seq<Document>, extra: seq<Document>)
    requires ChromaSave.AllHaveIds(first) && ChromaSave.AllHaveIds(extra)
  {
    forall i, j :: 0 <= i < |first| && 0 <= j < |extra| ==> first[i].metadata["id"] != extra[j].metadata["id"]
  }

  /**
   * Against the ids of `first`, the gate lets through exactly the chunks of
   * `extra` when the chunks are those of `first` and `extra` and the two share no id.
   */
  lemma GateLetsNewThrough(both: seq<Document>, first: seq<Document>, extra: seq<Document>)
    requires ChromaSave.StringIds(both) && ChromaSave.StringIds(first) && ChromaSave.StringIds(extra)
    requires ChromaSave.AllHaveIds(first) && ChromaSave.AllHaveIds(extra)
    requires multiset(both) == multiset(first) + multiset(extra)
    requires NoSharedIds(first, extra)
    ensures ChromaSave.AllHaveIds(both)
    ensures multiset(ChromaSave.NewChunks(both, ChromaSave.IdSet(ChromaSave.IdsOf(first)))) == multiset(extra)
  {
    var stored := ChromaSave.IdSet(ChromaSave.IdsOf(first));
    forall x ensures multiset(ChromaSave.NewChunks(both, stored))[x] == multiset(extra)[x] {
      Sequences.FilterCount(both, ChromaSave.NotStored(stored), x);
      if x in first {
        var i :| 0 <= i < |first| && first[i] == x;
        assert ChromaSave.IdsOf(first)[i] == x.metadata["id"];
        assert ChromaSave.Stored(stored, x);
        assert x !in extra by {
          forall j | 0 <= j < |extra| ensures extra[j] != x {
            assert first[i].metadata["id"] != extra[j].metadata["id"];
          }
        }
      } else if x in extra {
        var j :| 0 <= j < |extra| && extra[j] == x;
        assert !ChromaSave.Stored(stored, x) by {
          forall i | 0 <= i < |first| ensures ChromaSave.IdsOf(first)[i].PyStr? ==> ChromaSave.IdsOf(first)[i].s != x.metadata["id"].s {
            assert first[i].metadata["id"] != extra[j].metadata["id"];
          }
        }
      }
    }
  }

  /** The ids of s are among those of t when every chunk of s is one of t. */
  lemma IdSetOfMembers(s: seq<Document>, t: seq<Document>)
    requires ChromaSave.AllHaveIds(s) && ChromaSave.AllHaveIds(t)
    requires forall x :: x in s ==> x in t
    ensures ChromaSave.IdSet(ChromaSave.IdsOf(s)) <= ChromaSave.IdSet(ChromaSave.IdsOf(t))
  {
    forall id | id in ChromaSave.IdSet(ChromaSave.IdsOf(s)) ensures id in ChromaSave.IdSet(ChromaSave.IdsOf(t)) {
      var i :| 0 <= i < |s| && ChromaSave.IdsOf(s)[i].PyStr? && ChromaSave.IdsOf(s)[i].s == id;
      assert s[i] in t;
      var j :| 0 <= j < |t| && t[j] == s[i];
      assert ChromaSave.IdsOf(t)[j] == ChromaSave.IdsOf(s)[i];
    }
  }

  /**
   * Numbering is additive over files with distinct sources: numbering the
   * chunks of a and b together gives, up to order, the numbered chunks of
   * a and those of b, so every chunk keeps the id it had before.
   */
  lemma NumberingAdditive(a: seq<Document>, b: seq<Document>)
    requires UniqueIds.AllDocx(a + b)
    requires Sources(a) !! Sources(b)
    ensures UniqueIds.AllDocx(a) && UniqueIds.AllDocx(b)
    ensures ChromaSave.Numbered(a).Some? && ChromaSave.Numbered(b).Some? && ChromaSave.Numbered(a + b).Some?
    ensures multiset(ChromaSave.Numbered(a + b).value)
         == multiset(ChromaSave.Numbered(a).value) + multiset(ChromaSave.Numbered(b).value)
  {
    assert UniqueIds.AllDocx(a) && UniqueIds.AllDocx(b) by {
      forall i | 0 <= i < |a| ensures UniqueIds.DocxMetadata(a[i].metadata) {
        assert (a + b)[i] == a[i];
      }
      forall j | 0 <= j < |b| ensures UniqueIds.DocxMetadata(b[j].metadata) {
        assert (a + b)[|a| + j] == b[j];
      }
    }
    var p, q := ChromaSave.Prepared(a), ChromaSave.Prepared(b);
    forall i, j | 0 <= i < |p| && 0 <= j < |q| ensures ChunkOrder.Key(p[i]) != ChunkOrder.Key(q[j]) {
      PreparedSource(a, i);
      PreparedSource(b, j);
      assert a[i].metadata["source"] in Sources(a);
      assert b[j].metadata["source"] in Sources(b);
    }
    CountedAppend(p, q, ChunkOrder.Key, Label);
    PreparedAppend(a, b);
    NumberedCounts(a);
    NumberedCounts(b);
    NumberedCounts(a + b);
  }

  /**
   * The chunks of a numbered on their own and the chunks of b numbered on
   * their own share no id, since their sources differ.
   */
  lemma NoSharedIdsAcrossSources(a: seq<Document>, b: seq<Document>)
    requires UniqueIds.AllDocx(a) && UniqueIds.AllDocx(b)
    requires Sources(a) !! Sources(b)
    ensures ChromaSave.Numbered(a).Some? && ChromaSave.Numbered(b).Some?
    ensures ChromaSave.AllHaveIds(ChromaSave.Numbered(a).value) && ChromaSave.AllHaveIds(ChromaSave.Numbered(b).value)
    ensures NoSharedIds(ChromaSave.Numbered(a).value, ChromaSave.Numbered(b).value)
  {
    NumberedCounts(a);
    NumberedCounts(b);
    ChromaSave.NumberedSpec(a);
    ChromaSave.NumberedSpec(b);
    var na, nb := ChromaSave.Numbered(a).value, ChromaSave.Numbered(b).value;
    var p, q := ChromaSave.Prepared(a), ChromaSave.Prepared(b);
    forall i, j | 0 <= i < |na| && 0 <= j < |nb| ensures na[i].metadata["id"] != nb[j].metadata["id"] {
      assert na[i] in multiset(Counted(p, ChunkOrder.Key, Label));
      assert nb[j] in multiset(Counted(q, ChunkOrder.Key, Label));
      CountedApart(a, b, na[i], nb[j]);
    }
  }

  /** A counted chunk of a and a counted chunk of b have different ids when a and b share no source. */
  lemma CountedApart(a: seq<Document>, b: seq<Document>, x: Document, y: Document)
    requires UniqueIds.AllDocx(a) && UniqueIds.AllDocx(b)
    requires Sources(a) !! Sources(b)
    requires x in Counted(ChromaSave.Prepared(a), ChunkOrder.Key, Label)
    requires y in Counted(ChromaSave.Prepared(b), ChunkOrder.Key, Label)
    ensures "id" in x.metadata && "id" in y.metadata && x.metadata["id"] != y.metadata["id"]
  {
    var p, q := ChromaSave.Prepared(a), ChromaSave.Prepared(b);
    UniqueIds.CleanAllDocx(a);
    UniqueIds.CleanAllDocx(b);
    var i :| 0 <= i < |p| && Counted(p, ChunkOrder.Key, Label)[i] == x;
    var j :| 0 <= j < |q| && Counted(q, ChunkOrder.Key, Label)[j] == y;
    PreparedSource(a, i);
    PreparedSource(b, j);
    assert a[i].metadata["source"] in Sources(a);
    assert b[j].metadata["source"] in Sources(b);
    IdsApart(p, q, i, j);
  }

  /** Lists that make up the same multiset hold the same chunks. */
  lemma MembersOfMultiset(s: seq<Document>, t: seq<Document>, u: seq<Document>)
    requires multiset(t) == multiset(s) + multiset(u)
    ensures forall x :: x in s ==> x in t
    ensures u == [] ==> forall x :: x in t ==> x in s
  {
    assert forall x :: x in s ==> x in multiset(s);
    assert forall x :: x in t <==> x in multiset(t);
    if u == [] {
      assert forall x :: x in multiset(s) ==> x in s;
    }
  }

  /** A first run over DOCX chunks, with no database yet, creates it with every numbered chunk. */
  lemma FirstRunCreates(a: seq<Document>)
    requires UniqueIds.AllDocx(a)
    ensures ChromaSave.Numbered(a).Some?
    ensures ChromaSave.StringIds(ChromaSave.Numbered(a).value) && ChromaSave.AllHaveIds(ChromaSave.Numbered(a).value)
    ensures ChromaSave.SavePlan(a, None)
         == ChromaSave.Created(ChromaSave.Numbered(a).value, ChromaSave.IdsOf(ChromaSave.Numbered(a).value))
  {
    UniqueIds.DocxChunkIdsUnique(a);
    ChromaSave.SavePlanSpec(a, None);
    ChromaSave.GateSpec(ChromaSave.Numbered(a).value, None);
  }

  /**
   * The second run's gate: against the ids of `first`, the chunks of `first`
   * and `extra` together let exactly those of `extra` through, with their
   * ids, and keep every id of `first`.
   */
  lemma GateAfterFirstRun(both: seq<Document>, first: seq<Document>, extra: seq<Document>)
    requires ChromaSave.StringIds(both) && ChromaSave.AllClean(both)
    requires ChromaSave.StringIds(first) && ChromaSave.StringIds(extra)
    requires ChromaSave.AllHaveIds(first) && ChromaSave.AllHaveIds(extra)
    requires multiset(both) == multiset(first) + multiset(extra)
    requires NoSharedIds(first, extra) && extra != []
    ensures ChromaSave.AllHaveIds(both)
    ensures var g := ChromaSave.Gate(both, Some(ChromaSave.IdSet(ChromaSave.IdsOf(first))));
      && g.Added?
      && multiset(g.documents) == multiset(extra)
      && ChromaSave.AllHaveIds(g.documents)
      && ChromaSave.IdSet(g.ids) == ChromaSave.IdSet(ChromaSave.IdsOf(extra))
    ensures ChromaSave.IdSet(ChromaSave.IdsOf(first)) <= ChromaSave.IdSet(ChromaSave.IdsOf(both))
  {
    var stored := ChromaSave.IdSet(ChromaSave.IdsOf(first));
    ChromaSave.GateSpec(both, Some(stored));
    GateLetsNewThrough(both, first, extra);
    var unseen := ChromaSave.NewChunks(both, stored);
    MembersOfMultiset(unseen, extra, []);
    MembersOfMultiset(extra, unseen, []);
    assert extra[0] in unseen;
    IdSetOfMembers(unseen, extra);
    IdSetOfMembers(extra, unseen);
    MembersOfMultiset(first, both, extra);
    IdSetOfMembers(first, both);
  }

  /**
   * Adding files and ingesting again adds only their chunks. A first run
   * over a creates the store; a run over a + b against that store adds
   * exactly the numbered chunks of b, with their ids, and every id the
   * first run stored is still the id of some chunk of the second.
   */
  lemma NewFilesAddOnlyTheirChunks(a: seq<Document>, b: seq<Document>)
    requires UniqueIds.AllDocx(a + b)
    requires Sources(a) !! Sources(b)
    requires b != []
    ensures ChromaSave.SavePlan(a, None).Created?
    ensures ChromaSave.Numbered(a).Some? && ChromaSave.Numbered(b).Some? && ChromaSave.Numbered(a + b).Some?
    ensures ChromaSave.AllHaveIds(ChromaSave.Numbered(a).value) && ChromaSave.AllHaveIds(ChromaSave.Numbered(b).value)
    ensures ChromaSave.AllHaveIds(ChromaSave.Numbered(a + b).value)
    ensures var second := ChromaSave.SavePlan(a + b, ChromaSave.StoreAfter(None, ChromaSave.SavePlan(a, None)));
      && second.Added?
      && multiset(second.documents) == multiset(ChromaSave.Numbered(b).value)
      && ChromaSave.AllHaveIds(second.documents)
      && ChromaSave.IdSet(second.ids) == ChromaSave.IdSet(ChromaSave.IdsOf(ChromaSave.Numbered(b).value))
    ensures ChromaSave.IdSet(ChromaSave.IdsOf(ChromaSave.Numbered(a).value))
         <= ChromaSave.IdSet(ChromaSave.IdsOf(ChromaSave.Numbered(a + b).value))
  {
    NumberingAdditive(a, b);
    NoSharedIdsAcrossSources(a, b);
    FirstRunCreates(a);
    ChromaSave.NumberedSpec(b);
    var na, nb, nab := ChromaSave.Numbered(a).value, ChromaSave.Numbered(b).value, ChromaSave.Numbered(a + b).value;
    var store := Some(ChromaSave.IdSet(ChromaSave.IdsOf(na)));
    assert ChromaSave.StoreAfter(None, ChromaSave.SavePlan(a, None)) == store;
    ChromaSave.SavePlanSpec(a + b, store);
    assert |nb| == |b|;
    GateAfterFirstRun(nab, na, nb);
  }
}
