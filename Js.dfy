/** The few JavaScript value semantics the pipeline relies on: JSON-like
    values, truthiness, template-literal interpolation of a nullable string,
    and Array.prototype.join. */
module Js {
  import opened Wrappers

  /** A JSON-like value. Numbers are integers here; `undefined` is the absence
      of a key in an object, not a value. */
  datatype Json =
    | JNull
    | JBool(b: bool)
    | JNumber(n: int)
    | JString(s: string)
    | JArray(items: seq<Json>)
    | JObject(fields: map<string, Json>)

  /** JavaScript truthiness (`v ? … : …`) of a defined value. */
  predicate Truthy(v: Json) {
    match v
    case JNull => false
    case JBool(b) => b
    case JNumber(n) => n != 0
    case JString(s) => s != ""
    case JArray(_) => true
    case JObject(_) => true
  }

  /** `${x}` for a value of type `string | null`. */
  function Interpolate(x: Option<string>): (r: string)
    ensures x.Some? ==> r == x.value
    ensures x.None? ==> r == "null"
  {
    match x
    case Some(s) => s
    case None => "null"
  }

  /** A `string | null` as a JSON value. */
  function JsonOfNullable(x: Option<string>): (r: Json)
    ensures x.Some? <==> r.JString?
    ensures x.Some? ==> r == JString(x.value)
  {
    match x
    case Some(s) => JString(s)
    case None => JNull
  }

  /** `xs.join(sep)`. */
  function Join(xs: seq<string>, sep: string): string
  {
    if |xs| == 0 then ""
    else if |xs| == 1 then xs[0]
    else Join(xs[..|xs| - 1], sep) + sep + xs[|xs| - 1]
  }

  /** Where the `i`-th element starts in `Join(xs, sep)`. */
  function Offset(xs: seq<string>, sep: string, i: nat): nat
    requires i <= |xs|
  {
    if i == 0 then 0 else Offset(xs, sep, i - 1) + |xs[i - 1]| + |sep|
  }

  lemma {:induction false} OffsetPrefix(xs: seq<string>, sep: string, m: nat, i: nat)
    requires i <= m <= |xs|
    ensures Offset(xs[..m], sep, i) == Offset(xs, sep, i)
  {
    if i > 0 {
      OffsetPrefix(xs, sep, m, i - 1);
      assert xs[..m][i - 1] == xs[i - 1];
    }
  }

  /** `t` occurs in `s` starting at index `k`. */
  predicate OccursAt(s: string, k: nat, t: string) {
    k + |t| <= |s| && s[k..k + |t|] == t
  }

  lemma OccursInPrefix(a: string, b: string, k: nat, t: string)
    requires OccursAt(a, k, t)
    ensures OccursAt(a + b, k, t)
  {
    assert (a + b)[k..k + |t|] == a[k..k + |t|];
  }

  /** Where the two blocks `b1` and `b2` sit in `pre + b1 + mid + b2 + post`. */
  lemma TwoBlocksLayout(pre: string, b1: string, mid: string, b2: string, post: string)
    ensures var s := pre + b1 + mid + b2 + post;
            && OccursAt(s, |pre|, b1)
            && OccursAt(s, |s| - |post| - |b2|, b2)
            && s[|s| - |post|..] == post
  {
    var s := pre + b1 + mid + b2 + post;
    assert s[|pre|..|pre| + |b1|] == b1;
    assert s[|s| - |post| - |b2|..|s| - |post|] == b2;
  }

  /** The joined string is as long as the elements plus |xs|-1 separators. */
  lemma {:induction false} JoinLength(xs: seq<string>, sep: string)
    requires |xs| > 0
    ensures |Join(xs, sep)| + |sep| == Offset(xs, sep, |xs|)
  {
    var n := |xs|;
    if n > 1 {
      JoinLength(xs[..n - 1], sep);
      OffsetPrefix(xs, sep, n - 1, n - 1);
    }
  }

  /** Element `i` of the list sits at `Offset(xs, sep, i)` in the joined string. */
  lemma {:induction false} JoinElementAt(xs: seq<string>, sep: string, i: nat)
    requires i < |xs|
    ensures OccursAt(Join(xs, sep), Offset(xs, sep, i), xs[i])
  {
    var n := |xs|;
    if n > 1 {
      var front := xs[..n - 1];
      JoinLength(front, sep);
      OffsetPrefix(xs, sep, n - 1, i);
      if i < n - 1 {
        JoinElementAt(front, sep, i);
        OccursInPrefix(Join(front, sep), sep + xs[n - 1], Offset(xs, sep, i), xs[i]);
        assert Join(front, sep) + (sep + xs[n - 1]) == Join(xs, sep);
      } else {
        OffsetPrefix(xs, sep, n - 1, n - 1);
        assert Join(xs, sep) == (Join(front, sep) + sep) + xs[n - 1];
      }
    }
  }

  /** A separator follows every element but the last. */
  lemma {:induction false} JoinSeparatorAfter(xs: seq<string>, sep: string, i: nat)
    requires i + 1 < |xs|
    ensures OccursAt(Join(xs, sep), Offset(xs, sep, i) + |xs[i]|, sep)
  {
    var n := |xs|;
    var front := xs[..n - 1];
    OffsetPrefix(xs, sep, n - 1, i);
    assert front[i] == xs[i];
    if i + 1 < n - 1 {
      JoinSeparatorAfter(front, sep, i);
      OccursInPrefix(Join(front, sep), sep + xs[n - 1], Offset(xs, sep, i) + |xs[i]|, sep);
      assert Join(front, sep) + (sep + xs[n - 1]) == Join(xs, sep);
    } else {
      JoinLength(front, sep);
      OffsetPrefix(xs, sep, n - 1, n - 1);
      OccursInPrefix(Join(front, sep) + sep, xs[n - 1], |Join(front, sep)|, sep);
    }
  }

  /** Every element of the list occurs in the joined string. */
  /** What `Join(xs, sep)` holds around element `i`: the element at its
      offset, a separator after it unless it is the last, and the total
      length. */
  lemma JoinAt(xs: seq<string>, sep: string, i: nat)
    requires i < |xs|
    ensures OccursAt(Join(xs, sep), Offset(xs, sep, i), xs[i])
    ensures i + 1 < |xs| ==> OccursAt(Join(xs, sep), Offset(xs, sep, i) + |xs[i]|, sep)
    ensures |Join(xs, sep)| + |sep| == Offset(xs, sep, |xs|)
  {
    JoinElementAt(xs, sep, i);
    if i + 1 < |xs| {
      JoinSeparatorAfter(xs, sep, i);
    }
    JoinLength(xs, sep);
  }

  lemma JoinContains(xs: seq<string>, sep: string, i: nat)
    requires i < |xs|
    ensures exists k: nat :: OccursAt(Join(xs, sep), k, xs[i])
  {
    JoinElementAt(xs, sep, i);
  }
}
