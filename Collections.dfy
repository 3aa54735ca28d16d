/**
 * The mutable containers the converters write into: a line-oriented text
 * writer (a StreamWriter or StringBuilder used only through WriteLine), an
 * insertion-ordered dictionary (a .NET Dictionary that is only ever added to
 * or overwritten, never removed from, so it enumerates in insertion order)
 * and a zip archive seen as the ordered list of its entries.
 */
module Collections {
  import opened Text

  // ---------------------------------------------------------------------------
  // Insertion-ordered tables
  // ---------------------------------------------------------------------------

  /** No key occurs twice. */
  ghost predicate Distinct<K>(keys: seq<K>)
  {
    keys == [] || (keys[0] !in keys[1..] && Distinct(keys[1..]))
  }

  /** The keys of a sequence, as a set. */
  ghost function Elems<K>(keys: seq<K>): set<K>
  {
    if keys == [] then {} else {keys[0]} + Elems(keys[1..])
  }

  lemma {:induction false} ElemsMember<K>(keys: seq<K>, k: K)
    ensures k in Elems(keys) <==> k in keys
  {
    if keys != [] {
      ElemsMember(keys[1..], k);
      assert k in keys <==> k == keys[0] || k in keys[1..];
    }
  }

  lemma {:induction false} ElemsSnoc<K>(keys: seq<K>, k: K)
    ensures Elems(keys + [k]) == Elems(keys) + {k}
  {
    if keys != [] {
      assert (keys + [k])[1..] == keys[1..] + [k];
      ElemsSnoc(keys[1..], k);
    } else {
      assert keys + [k] == [k];
    }
  }

  lemma {:induction false} DistinctSnoc<K>(keys: seq<K>, k: K)
    requires Distinct(keys) && k !in keys
    ensures Distinct(keys + [k])
  {
    if keys != [] {
      assert (keys + [k])[1..] == keys[1..] + [k];
      DistinctSnoc(keys[1..], k);
    } else {
      assert keys + [k] == [k];
    }
  }

  /** In a list without repeats, equal entries sit at equal positions. */
  lemma {:induction false} DistinctIndices<K>(keys: seq<K>, i: nat, j: nat)
    requires Distinct(keys) && i < |keys| && j < |keys| && keys[i] == keys[j]
    ensures i == j
  {
    if i > 0 && j > 0 {
      DistinctIndices(keys[1..], i - 1, j - 1);
    }
  }

  /** The value of an insertion-ordered dictionary: its keys in order and its contents. */
  datatype Table<K(==, !new), V> = Table(keys: seq<K>, values: map<K, V>)
  {
    /** Keys are distinct and are exactly the keys of the contents. */
    ghost predicate Valid()
    {
      Distinct(keys) && Elems(keys) == values.Keys
    }

    /**
     * `table[k] = v`: the key maps to `v`, a new key goes to the end of the
     * enumeration order, and the keys already present keep their positions.
     */
    function Put(k: K, v: V): (t: Table<K, V>)
      ensures k in t.values && t.values[k] == v
      ensures t.values.Keys == values.Keys + {k}
      ensures |t.keys| == if k in values then |keys| else |keys| + 1
      ensures t.keys[..|keys|] == keys
    {
      Table(if k in values then keys else keys + [k], values[k := v])
    }
  }

  /** The table no insertion has touched yet. */
  function EmptyTable<K(==, !new), V>(): (t: Table<K, V>)
    ensures t.Valid() && t.keys == [] && t.values == map[]
  {
    Table([], map[])
  }

  /** Put changes the value of its own key only. */
  lemma PutOthers<K(!new), V>(t: Table<K, V>, k: K, v: V, other: K)
    requires other != k
    ensures other in t.Put(k, v).values <==> other in t.values
    ensures other in t.values ==> t.Put(k, v).values[other] == t.values[other]
  {
  }

  /** Put keeps the table valid; on a present key it keeps the key order as it is. */
  lemma PutValid<K(!new), V>(t: Table<K, V>, k: K, v: V)
    ensures t.Valid() ==> t.Put(k, v).Valid()
    ensures k in t.values ==> t.Put(k, v).keys == t.keys
    ensures k !in t.values ==> t.Put(k, v).keys == t.keys + [k]
  {
    if t.Valid() && k !in t.values {
      ElemsMember(t.keys, k);
      DistinctSnoc(t.keys, k);
      ElemsSnoc(t.keys, k);
    }
  }

  /** Every listed key of a valid table has a value. */
  lemma ValidKeys<K(!new), V>(t: Table<K, V>)
    requires t.Valid()
    ensures forall k :: k in t.keys ==> k in t.values
  {
    forall k | k in t.keys
      ensures k in t.values
    {
      ElemsMember(t.keys, k);
    }
  }

  /** A Dictionary updated in place, with its key order kept explicitly. */
  class OrderedDict<K(==, !new), V> {
    var keys: seq<K>
    var values: map<K, V>

    /** The dictionary's current value. */
    function View(): (t: Table<K, V>)
      reads this
      ensures t.keys == keys && t.values == values
    {
      Table(keys, values)
    }

    ghost predicate Valid()
      reads this
    {
      View().Valid()
    }

    constructor ()
      ensures View() == EmptyTable()
      ensures Valid()
    {
      keys := [];
      values := map[];
    }

    /** `dict[k] = v`. */
    method Set(k: K, v: V)
      modifies this
      ensures View() == old(View()).Put(k, v)
    {
      if k !in values {
        keys := keys + [k];
      }
      values := values[k := v];
    }

    /** `dict.ContainsKey(k)`. */
    method ContainsKey(k: K) returns (b: bool)
      ensures b <==> k in values
    {
      b := k in values;
    }
  }

  // ---------------------------------------------------------------------------
  // Line writers
  // ---------------------------------------------------------------------------

  /** A text writer that is only ever given whole lines. */
  class LineWriter {
    var lines: seq<string>

    constructor ()
      ensures lines == []
    {
      lines := [];
    }

    /** `WriteLine(s)`: one more line at the end, nothing else changes. */
    method WriteLine(s: string)
      modifies this
      ensures lines == old(lines) + [s]
    {
      lines := lines + [s];
    }
  }

  // ---------------------------------------------------------------------------
  // Zip archives
  // ---------------------------------------------------------------------------

  /**
   * The compression an entry is created with: `Default` stands for
   * `CreateEntry(name)` without a level, which deflates.
   */
  datatype CompressionLevel = Default | NoCompression

  /** What an entry holds: text written line by line, or raw bytes. */
  datatype EntryData = TextLines(lines: seq<string>) | Bytes(bytes: seq<uint8>)

  datatype ZipEntry = ZipEntry(name: string, data: EntryData, level: CompressionLevel)
  {
    /** Stored entries are the ones a USDZ package allows. */
    predicate Stored()
    {
      level == NoCompression
    }
  }

  /** A ZipArchive opened for creation: the entries in creation order. */
  class ZipArchive {
    var entries: seq<ZipEntry>

    constructor ()
      ensures entries == []
    {
      entries := [];
    }

    /** `CreateEntry(name, level)` followed by writing `data` to its stream. */
    method CreateEntry(name: string, data: EntryData, level: CompressionLevel)
      modifies this
      ensures entries == old(entries) + [ZipEntry(name, data, level)]
    {
      entries := entries + [ZipEntry(name, data, level)];
    }
  }
}
