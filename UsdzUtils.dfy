/** The USD text serialisers of GlbToUsdz.Core/Utils/UsdzUtils.cs, and parsers
    that read their output back. */
module UsdzUtils {

  import opened Wrappers
  import opened Text
  import opened Numerics
  import opened Lines

  // ---------------------------------------------------------------------------
  // The serialisers

  /** Element-wise n.ToString(). */
  function NatTexts(xs: seq<nat>): (r: seq<string>)
    ensures |r| == |xs| && forall i :: 0 <= i < |xs| ==> r[i] == NatText(xs[i])
  {
    seq(|xs|, i requires 0 <= i < |xs| => NatText(xs[i]))
  }

  /** `Enumerable.Repeat(v, n)`. */
  function Repeat(v: nat, n: nat): (r: seq<nat>)
    ensures |r| == n
    ensures forall i :: 0 <= i < n ==> r[i] == v
  {
    if n == 0 then [] else Repeat(v, n - 1) + [v]
  }

  /** IEnumerable<uint>.ToUsdString(): "[" + elements joined by ", " + "]". */
  function IndexArrayText(indices: seq<nat>): string
  {
    "[" + Join(", ", NatTexts(indices)) + "]"
  }

  /** Vector3.ToUsdString(): "(x, y, z)" with every component in F7. */
  function Vec3Text(p: Vec3): string
  {
    "(" + FormatFixed(p.x, 7) + ", " + FormatFixed(p.y, 7) + ", " + FormatFixed(p.z, 7) + ")"
  }

  /** Vector2.ToUsdString(): "(x, y)" with every component in F7. */
  function Vec2Text(p: Vec2): string
  {
    "(" + FormatFixed(p.x, 7) + ", " + FormatFixed(p.y, 7) + ")"
  }

  /** Vector4.ToXYZUsdString(): the X, Y and Z components only, in F7. */
  function XYZText(p: Vec4): string
  {
    "(" + FormatFixed(p.x, 7) + ", " + FormatFixed(p.y, 7) + ", " + FormatFixed(p.z, 7) + ")"
  }

  function Vec3Texts(vs: seq<Vec3>): (r: seq<string>)
    ensures |r| == |vs| && forall i :: 0 <= i < |vs| ==> r[i] == Vec3Text(vs[i])
  {
    seq(|vs|, i requires 0 <= i < |vs| => Vec3Text(vs[i]))
  }

  function Vec2Texts(vs: seq<Vec2>): (r: seq<string>)
    ensures |r| == |vs| && forall i :: 0 <= i < |vs| ==> r[i] == Vec2Text(vs[i])
  {
    seq(|vs|, i requires 0 <= i < |vs| => Vec2Text(vs[i]))
  }

  /** IEnumerable<Vector3>.ToUsdString(): "[" + tuples joined by "," + "]". */
  function Vec3ArrayText(vs: seq<Vec3>): string
  {
    "[" + Join(",", Vec3Texts(vs)) + "]"
  }

  /** IEnumerable<Vector2>.ToUsdString(): "[" + tuples joined by "," + "]". */
  function Vec2ArrayText(vs: seq<Vec2>): string
  {
    "[" + Join(",", Vec2Texts(vs)) + "]"
  }

  /** One row "(Mr1, Mr2, Mr3, Mr4)" of the matrix, in default float format. */
  function MatrixRowText(m: Matrix4x4, r: nat): string
    requires r < 4
  {
    "(" + FormatDefault(m[4 * r]) + ", " + FormatDefault(m[4 * r + 1]) + ", "
      + FormatDefault(m[4 * r + 2]) + ", " + FormatDefault(m[4 * r + 3]) + ")"
  }

  /** Matrix4x4.ToUsdString(): "( " + the four row tuples joined by ", " + " )". */
  function MatrixText(m: Matrix4x4): string
  {
    "( " + MatrixRowText(m, 0) + ", " + MatrixRowText(m, 1) + ", "
      + MatrixRowText(m, 2) + ", " + MatrixRowText(m, 3) + " )"
  }

  // ---------------------------------------------------------------------------
  // Reading the output back

  function ParseNats(fields: seq<string>): Option<seq<nat>>
  {
    if fields == [] then Some([])
    else match (ParseNat(fields[0]), ParseNats(fields[1..]))
      case (Some(n), Some(ns)) => Some([n] + ns)
      case _ => None
  }

  /** Reads "[a, b, ...]" back into the integers a, b, .... */
  function ParseIndexArray(s: string): Option<seq<nat>>
  {
    match Unwrap(s, "[", "]")
    case None => None
    case Some(body) => ParseNats(SplitFields(body))
  }

  predicate NoParens(s: string)
  {
    '(' !in s && ')' !in s
  }

  /** "(" + text without parentheses + ")". */
  predicate IsTuple(t: string)
  {
    |t| >= 2 && t[0] == '(' && t[|t| - 1] == ')' && NoParens(t[1..|t| - 1])
  }

  /** The top-level parenthesised tuples of a "," or ", " separated list. */
  function SplitTuples(s: string): Option<seq<string>>
    decreases |s|
  {
    if s == [] then Some([])
    else if s[0] != '(' then None
    else
      var k := IndexOf(s, ')');
      if k == |s| then None
      else
        var rest := s[k + 1..];
        if rest == [] then Some([s[..k + 1]])
        else if rest[0] != ',' then None
        else
          var next := if |rest| > 1 && rest[1] == ' ' then rest[2..] else rest[1..];
          if next == [] then None
          else match SplitTuples(next)
            case None => None
            case Some(ts) => Some([s[..k + 1]] + ts)
  }

  // ---------------------------------------------------------------------------
  // Properties

  /** The index array reads back as exactly the original indices, in order. */
  lemma {:induction false} IndexArrayRoundTrip(xs: seq<nat>)
    ensures ParseIndexArray(IndexArrayText(xs)) == Some(xs)
  {
    var texts := NatTexts(xs);
    UnwrapWrap("[", Join(", ", texts), "]");
    forall i | 0 <= i < |texts| ensures texts[i] != [] && ',' !in texts[i] {
      NatTextIsToken(xs[i]);
    }
    SplitJoinFields(texts);
    ParseNatsTexts(xs);
  }

  lemma IndexArrayEmpty()
    ensures IndexArrayText([]) == "[]"
  {
  }

  lemma NatTextIsToken(n: nat)
    ensures IsNumberToken(NatText(n)) && ',' !in NatText(n)
  {
    var s := NatText(n);
    assert forall i :: 0 <= i < |s| ==> NumberChar(s[i]);
    NumberTokenHasNoPunctuation(s);
  }

  lemma {:induction false} ParseNatsTexts(xs: seq<nat>)
    ensures ParseNats(NatTexts(xs)) == Some(xs)
  {
    if xs != [] {
      ParseNatText(xs[0]);
      assert NatTexts(xs)[1..] == NatTexts(xs[1..]);
      ParseNatsTexts(xs[1..]);
      assert [xs[0]] + xs[1..] == xs;
    }
  }

  lemma {:induction false} JoinNoParens(sep: string, xs: seq<string>)
    requires NoParens(sep)
    requires forall i :: 0 <= i < |xs| ==> NoParens(xs[i])
    ensures NoParens(Join(sep, xs))
  {
    if |xs| > 1 {
      JoinNoParens(sep, xs[1..]);
    }
  }

  lemma {:induction false} JoinNoComma(sep: string, xs: seq<string>)
    requires ',' !in sep
    requires forall i :: 0 <= i < |xs| ==> ',' !in xs[i]
    ensures ',' !in Join(sep, xs)
  {
    if |xs| > 1 {
      JoinNoComma(sep, xs[1..]);
    }
  }

  /** A tuple of rendered numbers splits back into those numbers. */
  lemma TupleFields(fields: seq<string>)
    requires forall i :: 0 <= i < |fields| ==> IsNumberToken(fields[i])
    ensures Unwrap("(" + Join(", ", fields) + ")", "(", ")") == Some(Join(", ", fields))
    ensures SplitFields(Join(", ", fields)) == fields
    ensures IsTuple("(" + Join(", ", fields) + ")")
  {
    UnwrapWrap("(", Join(", ", fields), ")");
    forall i | 0 <= i < |fields| ensures fields[i] != [] && ',' !in fields[i] && NoParens(fields[i]) {
      NumberTokenHasNoPunctuation(fields[i]);
    }
    SplitJoinFields(fields);
    JoinNoParens(", ", fields);
    var t := "(" + Join(", ", fields) + ")";
    assert t[1..|t| - 1] == Join(", ", fields);
  }

  lemma Tuple2Shape(a: string, b: string)
    requires IsNumberToken(a) && IsNumberToken(b)
    ensures IsTuple("(" + a + ", " + b + ")")
    ensures Unwrap("(" + a + ", " + b + ")", "(", ")").Some?
    ensures SplitFields(Unwrap("(" + a + ", " + b + ")", "(", ")").value) == [a, b]
  {
    Join2(", ", a, b);
    var t := "(" + a + ", " + b + ")";
    assert t == "(" + Join(", ", [a, b]) + ")";
    TupleFields([a, b]);
  }

  lemma Tuple3Shape(a: string, b: string, c: string)
    requires IsNumberToken(a) && IsNumberToken(b) && IsNumberToken(c)
    ensures IsTuple("(" + a + ", " + b + ", " + c + ")")
    ensures Unwrap("(" + a + ", " + b + ", " + c + ")", "(", ")").Some?
    ensures SplitFields(Unwrap("(" + a + ", " + b + ", " + c + ")", "(", ")").value) == [a, b, c]
  {
    Join3(", ", a, b, c);
    var t := "(" + a + ", " + b + ", " + c + ")";
    assert t == "(" + Join(", ", [a, b, c]) + ")";
    TupleFields([a, b, c]);
  }

  lemma Tuple4Shape(a: string, b: string, c: string, d: string)
    requires IsNumberToken(a) && IsNumberToken(b) && IsNumberToken(c) && IsNumberToken(d)
    ensures IsTuple("(" + a + ", " + b + ", " + c + ", " + d + ")")
    ensures Unwrap("(" + a + ", " + b + ", " + c + ", " + d + ")", "(", ")").Some?
    ensures SplitFields(Unwrap("(" + a + ", " + b + ", " + c + ", " + d + ")", "(", ")").value) == [a, b, c, d]
  {
    Join4(", ", a, b, c, d);
    var t := "(" + a + ", " + b + ", " + c + ", " + d + ")";
    assert t == "(" + Join(", ", [a, b, c, d]) + ")";
    TupleFields([a, b, c, d]);
  }

  /** A Vector3 renders as the tuple of its three F7 components, in order. */
  lemma Vec3TextShape(p: Vec3)
    ensures IsTuple(Vec3Text(p))
    ensures Unwrap(Vec3Text(p), "(", ")").Some?
    ensures SplitFields(Unwrap(Vec3Text(p), "(", ")").value) == [FormatFixed(p.x, 7), FormatFixed(p.y, 7), FormatFixed(p.z, 7)]
  {
    Tuple3Shape(FormatFixed(p.x, 7), FormatFixed(p.y, 7), FormatFixed(p.z, 7));
  }

  /** A Vector2 renders as the tuple of its two F7 components, in order. */
  lemma Vec2TextShape(p: Vec2)
    ensures IsTuple(Vec2Text(p))
    ensures Unwrap(Vec2Text(p), "(", ")").Some?
    ensures SplitFields(Unwrap(Vec2Text(p), "(", ")").value) == [FormatFixed(p.x, 7), FormatFixed(p.y, 7)]
  {
    Tuple2Shape(FormatFixed(p.x, 7), FormatFixed(p.y, 7));
  }

  /** ToXYZUsdString emits exactly three fields, X, Y and Z: W never appears,
      and the colour text does not depend on it. */
  lemma XYZTextShape(p: Vec4, w: real)
    ensures SplitFields(Unwrap(XYZText(p), "(", ")").value) == [FormatFixed(p.x, 7), FormatFixed(p.y, 7), FormatFixed(p.z, 7)]
    ensures XYZText(p) == Vec3Text(Vec3(p.x, p.y, p.z)) == XYZText(p.(w := w))
  {
    Vec3TextShape(Vec3(p.x, p.y, p.z));
  }

  /** A tuple followed by anything: its closing parenthesis is the first one. */
  lemma TupleHead(t: string, rest: string)
    requires IsTuple(t)
    ensures (t + rest)[0] == '('
    ensures IndexOf(t + rest, ')') == |t| - 1
    ensures (t + rest)[..|t|] == t && (t + rest)[|t|..] == rest
  {
    assert t == t[..|t| - 1] + [')'];
    assert t + rest == t[..|t| - 1] + ([')'] + rest);
    assert ')' !in t[..|t| - 1] by {
      assert t[..|t| - 1] == [t[0]] + t[1..|t| - 1];
    }
    IndexOfAfter(t[..|t| - 1], [')'] + rest, ')');
  }

  /** After a separator comes the next tuple, whichever separator it is. */
  lemma SeparatorNext(sep: string, tail: string)
    requires sep == "," || sep == ", "
    requires tail != [] && tail[0] == '('
    ensures (sep + tail)[0] == ','
    ensures (if |sep + tail| > 1 && (sep + tail)[1] == ' ' then (sep + tail)[2..] else (sep + tail)[1..]) == tail
  {
    var rest := sep + tail;
    if sep == ", " {
      assert rest[1] == ' ';
      assert rest[2..] == tail;
    } else {
      assert rest[1] == tail[0];
      assert rest[1..] == tail;
    }
  }

  /** A lone tuple splits into itself. */
  lemma SplitTuplesOne(t: string)
    requires IsTuple(t)
    ensures SplitTuples(t) == Some([t])
  {
    TupleHead(t, "");
    assert t + "" == t;
  }

  /** A tuple, a separator and more tuples: the first tuple, then the split of the rest. */
  lemma SplitTuplesCons(t: string, sep: string, tail: string)
    requires IsTuple(t) && (sep == "," || sep == ", ")
    requires tail != [] && tail[0] == '('
    ensures SplitTuples(t + sep + tail) == match SplitTuples(tail)
      case None => None
      case Some(ts) => Some([t] + ts)
  {
    AppendAssoc(t, sep, tail);
    SplitTuplesAfter(t, sep + tail, tail);
  }

  lemma SplitTuplesAfter(t: string, rest: string, tail: string)
    requires IsTuple(t) && (rest == "," + tail || rest == ", " + tail)
    requires tail != [] && tail[0] == '('
    ensures SplitTuples(t + rest) == match SplitTuples(tail)
      case None => None
      case Some(ts) => Some([t] + ts)
  {
    TupleHead(t, rest);
    if rest == "," + tail {
      SeparatorNext(",", tail);
    } else {
      SeparatorNext(", ", tail);
    }
  }

  lemma {:induction false} SplitJoinTuples(ts: seq<string>, sep: string)
    requires sep == "," || sep == ", "
    requires forall i :: 0 <= i < |ts| ==> IsTuple(ts[i])
    ensures SplitTuples(Join(sep, ts)) == Some(ts)
  {
    if |ts| == 1 {
      SplitTuplesOne(ts[0]);
      assert ts == [ts[0]];
    } else if |ts| > 1 {
      var tail := Join(sep, ts[1..]);
      JoinNonEmpty(sep, ts[1..]);
      SplitTuplesCons(ts[0], sep, tail);
      SplitJoinTuples(ts[1..], sep);
      HeadTail(ts);
    }
  }

  /** The vector array lists one tuple per input vector, each the vector's own
      text, in source order; so its tuple count is the input length. */
  lemma Vec3ArrayShape(vs: seq<Vec3>)
    ensures Unwrap(Vec3ArrayText(vs), "[", "]") == Some(Join(",", Vec3Texts(vs)))
    ensures SplitTuples(Join(",", Vec3Texts(vs))) == Some(Vec3Texts(vs))
    ensures |Vec3Texts(vs)| == |vs|
  {
    UnwrapWrap("[", Join(",", Vec3Texts(vs)), "]");
    forall i | 0 <= i < |vs| ensures IsTuple(Vec3Texts(vs)[i]) {
      Vec3TextShape(vs[i]);
    }
    SplitJoinTuples(Vec3Texts(vs), ",");
  }

  lemma Vec2ArrayShape(vs: seq<Vec2>)
    ensures Unwrap(Vec2ArrayText(vs), "[", "]") == Some(Join(",", Vec2Texts(vs)))
    ensures SplitTuples(Join(",", Vec2Texts(vs))) == Some(Vec2Texts(vs))
    ensures |Vec2Texts(vs)| == |vs|
  {
    UnwrapWrap("[", Join(",", Vec2Texts(vs)), "]");
    forall i | 0 <= i < |vs| ensures IsTuple(Vec2Texts(vs)[i]) {
      Vec2TextShape(vs[i]);
    }
    SplitJoinTuples(Vec2Texts(vs), ",");
  }

  function RowFields(m: Matrix4x4, r: nat): seq<string>
    requires r < 4
  {
    [FormatDefault(m[4 * r]), FormatDefault(m[4 * r + 1]), FormatDefault(m[4 * r + 2]), FormatDefault(m[4 * r + 3])]
  }

  lemma MatrixRowShape(m: Matrix4x4, r: nat)
    requires r < 4
    ensures IsTuple(MatrixRowText(m, r))
    ensures Unwrap(MatrixRowText(m, r), "(", ")").Some?
    ensures SplitFields(Unwrap(MatrixRowText(m, r), "(", ")").value) == RowFields(m, r)
  {
    Tuple4Shape(FormatDefault(m[4 * r]), FormatDefault(m[4 * r + 1]), FormatDefault(m[4 * r + 2]), FormatDefault(m[4 * r + 3]));
  }

  lemma FourTuplesShape(r0: string, r1: string, r2: string, r3: string)
    requires IsTuple(r0) && IsTuple(r1) && IsTuple(r2) && IsTuple(r3)
    ensures Unwrap("( " + r0 + ", " + r1 + ", " + r2 + ", " + r3 + " )", "( ", " )").Some?
    ensures SplitTuples(Unwrap("( " + r0 + ", " + r1 + ", " + r2 + ", " + r3 + " )", "( ", " )").value)
         == Some([r0, r1, r2, r3])
  {
    Join4(", ", r0, r1, r2, r3);
    var t := "( " + r0 + ", " + r1 + ", " + r2 + ", " + r3 + " )";
    assert t == "( " + Join(", ", [r0, r1, r2, r3]) + " )";
    UnwrapWrap("( ", Join(", ", [r0, r1, r2, r3]), " )");
    SplitJoinTuples([r0, r1, r2, r3], ", ");
  }

  /** The matrix text is four tuples, the r-th holding Mr1..Mr4 in order. */
  lemma MatrixTextShape(m: Matrix4x4)
    ensures Unwrap(MatrixText(m), "( ", " )").Some?
    ensures SplitTuples(Unwrap(MatrixText(m), "( ", " )").value)
         == Some([MatrixRowText(m, 0), MatrixRowText(m, 1), MatrixRowText(m, 2), MatrixRowText(m, 3)])
    ensures forall r :: 0 <= r < 4 ==>
              Unwrap(MatrixRowText(m, r), "(", ")").Some?
              && SplitFields(Unwrap(MatrixRowText(m, r), "(", ")").value) == RowFields(m, r)
  {
    forall r | 0 <= r < 4
      ensures IsTuple(MatrixRowText(m, r))
      ensures Unwrap(MatrixRowText(m, r), "(", ")").Some?
      ensures SplitFields(Unwrap(MatrixRowText(m, r), "(", ")").value) == RowFields(m, r)
    {
      MatrixRowShape(m, r);
    }
    FourTuplesShape(MatrixRowText(m, 0), MatrixRowText(m, 1), MatrixRowText(m, 2), MatrixRowText(m, 3));
  }
}
