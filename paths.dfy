/**
 * The configuration context's field path: an immutable location inside the
 * configuration such as `tests[1].literal_steps.pre[0].dependencies[1]`.
 * Extending a path never changes the path it was made from, so a validator
 * can hand one prefix to many children.
 */
module FieldPath {
  import opened Text

  datatype Segment =
    | Field(name: string)   // `.name` (no dot at the start of a path)
    | Index(i: nat)         // `[i]`
    | Key(key: string)      // `[key]`, the entry of a map

  type Path = seq<Segment>

  /** The path of the configuration root (NewConfigContext()). */
  const Root: Path := []

  function AddField(p: Path, name: string): Path {
    p + [Field(name)]
  }

  function AddIndex(p: Path, i: nat): Path {
    p + [Index(i)]
  }

  function AddKey(p: Path, key: string): Path {
    p + [Key(key)]
  }

  /** A path as it appears in an error message. */
  function Render(p: Path): string {
    if p == [] then "" else Render(p[..|p| - 1]) + RenderSegment(p[|p| - 1], |p| == 1)
  }

  function RenderSegment(s: Segment, first: bool): string {
    match s
    case Field(name) => if first then name else "." + name
    case Index(i) => "[" + NatToString(i) + "]"
    case Key(key) => "[" + key + "]"
  }

  /** A field below a non-root path is written after a dot. */
  lemma RenderAddField(p: Path, name: string)
    requires p != []
    ensures Render(AddField(p, name)) == Render(p) + "." + name
  {
    assert AddField(p, name)[..|p|] == p;
  }

  /** A field of a top-level field is written `a.b`. */
  lemma RenderTwoFields(a: string, b: string)
    ensures Render(AddField(AddField(Root, a), b)) == a + "." + b
  {
    var p := AddField(Root, a);
    assert Render(p) == Render([]) + RenderSegment(Field(a), true);
    RenderAddField(p, b);
  }

  /** An element of a list is written with its index in brackets. */
  lemma RenderAddIndex(p: Path, i: nat)
    ensures Render(AddIndex(p, i)) == Render(p) + "[" + NatToString(i) + "]"
  {
    assert AddIndex(p, i)[..|p|] == p;
  }

  /** A message located under `p` starts with `p`'s own rendering. */
  lemma {:induction false} RenderExtends(p: Path, q: Path)
    ensures Render(p) <= Render(p + q)
    decreases |q|
  {
    if q != [] {
      var q' := q[..|q| - 1];
      assert (p + q)[..|p + q| - 1] == p + q';
      RenderExtends(p, q');
      var r := Render(p + q');
      assert Render(p + q) == r + RenderSegment(q[|q| - 1], |p + q| == 1);
      assert Render(p) == r[..|Render(p)|];
    } else {
      assert p + q == p;
    }
  }

  /** Two elements of one list are reported at distinguishable locations. */
  lemma IndexDistinguishes(p: Path, i: nat, j: nat)
    requires Render(AddIndex(p, i)) == Render(AddIndex(p, j))
    ensures i == j
  {
    var a := Render(p) + "[";
    var x, y := NatToString(i), NatToString(j);
    assert AddIndex(p, i)[..|AddIndex(p, i)| - 1] == p;
    assert AddIndex(p, j)[..|AddIndex(p, j)| - 1] == p;
    var s := a + x + "]";
    var t := a + y + "]";
    assert Render(AddIndex(p, i)) == s && Render(AddIndex(p, j)) == t;
    assert |x| == |y|;
    assert x == s[|a|..|s| - 1];
    assert y == t[|a|..|t| - 1];
    NatToStringInjective(i, j);
  }
}
