/**
 * Reading generated text back one line at a time: the lines of a document
 * that begin with a keyword, and what follows the keyword on each of them.
 */
module Lines {
  import opened Wrappers
  import opened Text

  lemma AppendAssoc<T>(a: seq<T>, b: seq<T>, c: seq<T>)
    ensures (a + b) + c == a + (b + c)
  {
  }

  lemma HeadTail<T>(s: seq<T>)
    requires |s| > 0
    ensures [s[0]] + s[1..] == s
  {
  }

  /** What follows `key` on every line that begins with `key`, in document order. */
  function Values(lines: seq<string>, key: string): (r: seq<string>)
    ensures |r| <= |lines|
  {
    if lines == [] then []
    else (if StartsWith(lines[0], key) then [lines[0][|key|..]] else []) + Values(lines[1..], key)
  }

  /** Reading distributes over concatenation of documents. */
  lemma {:induction false} ValuesAppend(a: seq<string>, b: seq<string>, key: string)
    ensures Values(a + b, key) == Values(a, key) + Values(b, key)
  {
    if a == [] {
      assert a + b == b;
    } else {
      var head := if StartsWith(a[0], key) then [a[0][|key|..]] else [];
      assert (a + b)[0] == a[0] && (a + b)[1..] == a[1..] + b;
      ValuesAppend(a[1..], b, key);
      AppendAssoc(head, Values(a[1..], key), Values(b, key));
    }
  }

  /** Reading a document split in two, from what each part reads. */
  lemma ValuesSplit(lines: seq<string>, a: seq<string>, b: seq<string>, key: string, v: seq<string>, va: seq<string>, vb: seq<string>)
    requires lines == a + b && Values(a, key) == va && Values(b, key) == vb && v == va + vb
    ensures Values(lines, key) == v
  {
    ValuesAppend(a, b, key);
  }

  /** No line begins with `key` exactly when nothing is read. */
  lemma {:induction false} ValuesEmpty(lines: seq<string>, key: string)
    ensures Values(lines, key) == [] <==> forall k :: 0 <= k < |lines| ==> !StartsWith(lines[k], key)
  {
    if lines != [] {
      ValuesEmpty(lines[1..], key);
      assert forall k :: 1 <= k < |lines| ==> lines[k] == lines[1..][k - 1];
    }
  }

  /**
   * `s` differs from `key` in column `c1` or in column `c2`, or is too short
   * to reach the column.
   */
  predicate Misses(s: string, key: string, c1: nat, c2: nat)
    requires c1 < |key| && c2 < |key|
  {
    (|s| <= c1 || s[c1] != key[c1]) || (|s| <= c2 || s[c2] != key[c2])
  }

  /** A line that misses the keyword in some column does not begin with it. */
  lemma MissesNotStarts(s: string, key: string, c1: nat, c2: nat)
    requires c1 < |key| && c2 < |key| && Misses(s, key, c1, c2)
    ensures !StartsWith(s, key)
  {
    if |key| <= |s| {
      assert s[..|key|][c1] == s[c1] && s[..|key|][c2] == s[c2];
    }
  }

  /** Nothing is read from lines that all miss the keyword. */
  lemma {:induction false} ValuesNone(lines: seq<string>, key: string, c1: nat, c2: nat)
    requires c1 < |key| && c2 < |key|
    requires forall k :: 0 <= k < |lines| ==> Misses(lines[k], key, c1, c2)
    ensures Values(lines, key) == []
  {
    forall k | 0 <= k < |lines|
      ensures !StartsWith(lines[k], key)
    {
      MissesNotStarts(lines[k], key, c1, c2);
    }
    ValuesEmpty(lines, key);
  }

  /** Exactly one value is read when every other line misses the keyword. */
  lemma {:induction false} ValuesOnly(lines: seq<string>, key: string, c1: nat, c2: nat, i: nat)
    requires c1 < |key| && c2 < |key| && i < |lines| && StartsWith(lines[i], key)
    requires forall k :: 0 <= k < |lines| && k != i ==> Misses(lines[k], key, c1, c2)
    ensures Values(lines, key) == [lines[i][|key|..]]
  {
    if i == 0 {
      ValuesNone(lines[1..], key, c1, c2);
    } else {
      MissesNotStarts(lines[0], key, c1, c2);
      ValuesOnly(lines[1..], key, c1, c2, i - 1);
    }
  }

  /**
   * In a document whose first part has no `second` line and whose second
   * part has no `first` line, every `first` line comes before every
   * `second` line.
   */
  lemma KeysOrdered(a: seq<string>, b: seq<string>, first: string, second: string)
    requires Values(a, second) == [] && Values(b, first) == []
    ensures forall i, j ::
              (0 <= i < |a + b| && 0 <= j < |a + b| &&
               StartsWith((a + b)[i], first) && StartsWith((a + b)[j], second))
              ==> i < j
  {
    ValuesEmpty(a, second);
    ValuesEmpty(b, first);
    forall k | 0 <= k < |a + b|
      ensures StartsWith((a + b)[k], first) ==> k < |a|
      ensures StartsWith((a + b)[k], second) ==> k >= |a|
    {
      if k < |a| {
        assert (a + b)[k] == a[k];
      } else {
        assert (a + b)[k] == b[k - |a|];
      }
    }
  }

  /** Every line long enough to reach column `col` holds one of `cs` there. */
  predicate ColumnIn(lines: seq<string>, col: nat, cs: set<char>)
  {
    forall k :: 0 <= k < |lines| ==> |lines[k]| <= col || lines[k][col] in cs
  }

  /** Nothing is read for a keyword whose character in that column is none of `cs`. */
  lemma ValuesOff(lines: seq<string>, key: string, col: nat, cs: set<char>)
    requires col < |key| && key[col] !in cs && ColumnIn(lines, col, cs)
    ensures Values(lines, key) == []
  {
    ValuesNone(lines, key, col, col);
  }

  /** A line made of the keyword and a value reads back as that value. */
  lemma KeyedLine(key: string, value: string)
    ensures StartsWith(key + value, key)
    ensures (key + value)[|key|..] == value
  {
    assert (key + value)[..|key|] == key;
  }

  /** `key` reaches column `col` and holds none of `cs` there. */
  predicate OffAt(key: string, col: nat, cs: set<char>)
  {
    col < |key| && key[col] !in cs
  }

  /** A line that differs from `key` in a column both reach is not read. */
  lemma LineOff(prefix: string, tail: string, key: string, c: nat)
    requires c < |prefix| && c < |key| && prefix[c] != key[c]
    ensures Values([prefix + tail], key) == []
  {
    assert ColumnIn([prefix + tail], c, {prefix[c]});
    ValuesOff([prefix + tail], key, c, {prefix[c]});
  }

  /** A line made of `key` and a value is read back as that value. */
  lemma LineRead(key: string, value: string)
    ensures Values([key + value], key) == [value]
  {
    KeyedLine(key, value);
  }

  /** A keyword line written only when its value is present. */
  function OptionalLine(key: string, value: Option<string>): seq<string>
  {
    if value.Some? then [key + value.value] else []
  }

  /** An optional line is read under its own keyword only. */
  lemma OptionalOff(name: string, value: Option<string>, key: string, c: nat)
    requires c < |name| && c < |key| && name[c] != key[c]
    ensures Values(OptionalLine(name, value), key) == []
  {
    if value.Some? {
      LineOff(name, value.value, key, c);
    }
  }

  lemma OptionalRead(name: string, value: Option<string>)
    ensures Values(OptionalLine(name, value), name) == if value.Some? then [value.value] else []
  {
    if value.Some? {
      LineRead(name, value.value);
    }
  }
}
