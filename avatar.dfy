/**
 * The avatar component: the picture when there is a usable URI, otherwise a
 * coloured circle with the name's initial. The colour is picked from ten
 * by the sum of the name's character codes.
 */
module Avatar {
  import opened Wrappers
  import opened Text

  /** `getInitial`: the upper-cased first character of the trimmed name, or "" for a blank name. */
  function Initial(fullName: string): (r: string)
    ensures |r| <= 1
    ensures r == [] <==> AllSpace(fullName)
    ensures r != [] ==> Trim(fullName) != [] && !IsSpace(Trim(fullName)[0]) && r[0] == UpperAscii(Trim(fullName)[0])
  {
    TrimBlank(fullName);
    TrimEnds(fullName);
    var trimmed := Trim(fullName);
    if trimmed == [] then "" else [UpperAscii(trimmed[0])]
  }

  const Palette: seq<string> := [
    "#FF6B6B", "#4ECDC4", "#45B7D1", "#FFA07A", "#98D8C8",
    "#F7DC6F", "#BB8FCE", "#85C1E2", "#F8B739", "#52B788"
  ]

  /** `name.split('').reduce((acc, char) => acc + char.charCodeAt(0), 0)`, folded from the left. */
  function CodeSum(name: string): (r: nat)
    ensures forall i :: 0 <= i < |name| ==> name[i] as int <= r
  {
    if name == [] then 0 else CodeSum(name[..|name| - 1]) + name[|name| - 1] as int
  }

  /** The palette index: the code sum modulo the palette's size. */
  function ColorIndex(name: string): (i: nat)
    ensures i < |Palette| && i < 10
  {
    CodeSum(name) % |Palette|
  }

  /** `getBackgroundColor`. */
  function BackgroundColor(name: string): (c: string)
    ensures c in Palette
  {
    Palette[ColorIndex(name)]
  }

  lemma {:induction false} CodeSumConcat(a: string, b: string)
    ensures CodeSum(a + b) == CodeSum(a) + CodeSum(b)
  {
    if b == [] {
      assert a + b == a;
    } else {
      assert (a + b)[..|a + b| - 1] == a + b[..|b| - 1];
      CodeSumConcat(a, b[..|b| - 1]);
    }
  }

  /** Taking the character at `j` out of a name takes exactly one copy of it out of its multiset. */
  lemma RemoveAtMultiset(b: string, j: nat)
    requires j < |b|
    ensures multiset(b[..j] + b[j + 1..]) == multiset(b) - multiset{b[j]}
  {
    var pre, post := b[..j], b[j + 1..];
    assert b == pre + [b[j]] + post;
    assert multiset(b) == multiset(pre) + multiset{b[j]} + multiset(post);
    assert multiset(pre + post) == multiset(pre) + multiset(post);
  }

  /** Taking the character at `j` out of a name takes exactly its code out of the sum. */
  lemma RemoveAtCodeSum(b: string, j: nat)
    requires j < |b|
    ensures CodeSum(b) == CodeSum(b[..j] + b[j + 1..]) + b[j] as int
  {
    var pre, x, post := b[..j], b[j], b[j + 1..];
    assert b == (pre + [x]) + post;
    CodeSumConcat(pre + [x], post);
    CodeSumConcat(pre, [x]);
    CodeSumConcat(pre, post);
    assert CodeSum([x]) == x as int by {
      assert [x][..0] == [];
    }
  }

  /** The code sum depends only on which characters occur how often, not on their order. */
  lemma {:induction false} CodeSumPermutation(a: string, b: string)
    requires multiset(a) == multiset(b)
    ensures CodeSum(a) == CodeSum(b)
    decreases |a|
  {
    if a != [] {
      var x := a[|a| - 1];
      var a' := a[..|a| - 1];
      assert a == a' + [x];
      assert multiset(a') == multiset(a) - multiset{x};
      assert x in multiset(b);
      var j :| 0 <= j < |b| && b[j] == x;
      RemoveAtMultiset(b, j);
      RemoveAtCodeSum(b, j);
      CodeSumPermutation(a', b[..j] + b[j + 1..]);
    }
  }

  /** The colour is the same for any rearrangement of the name's characters. */
  lemma ColorIgnoresOrder(a: string, b: string)
    requires multiset(a) == multiset(b)
    ensures BackgroundColor(a) == BackgroundColor(b)
  {
    CodeSumPermutation(a, b);
  }

  /** `!uri || imageError`: the circle is drawn when there is no usable URI or the image failed. */
  predicate ShowsFallback(uri: Option<string>, imageError: bool): (b: bool)
    ensures imageError ==> b
    ensures !imageError ==> (b <==> uri.None? || uri.value == "")
  {
    !Truthy(uri) || imageError
  }

  /** One rendered avatar; its only state is the one-shot `imageError` flag. */
  class AvatarView {
    const uri: Option<string>
    const name: string
    var imageError: bool

    constructor(uri: Option<string>, name: string)
      ensures this.uri == uri && this.name == name && !imageError
      ensures Fallback() <==> !Truthy(uri)
    {
      this.uri := uri;
      this.name := name;
      imageError := false;
    }

    function Fallback(): bool
      reads this
    {
      ShowsFallback(uri, imageError)
    }

    /** `onError={() => setImageError(true)}`: the flag only ever goes from false to true. */
    method ImageFailed()
      modifies this
      ensures imageError && Fallback()
      ensures old(imageError) ==> imageError
    {
      imageError := true;
    }
  }
}
