/** Type Reference Resolver: `cleanName` (index.js:65-67). */
module Names {
  import opened GraphSchema

  /**
   * `name.replace(/[[\]!]/g, '')`: every `[`, `]` and `!` is removed and all
   * other characters are kept in order.
   */
  function CleanName(name: string): (r: string)
    ensures NoMarkers(r)
    ensures |r| <= |name|
    ensures forall c :: c in r <==> c in name && !IsMarker(c)
  {
    if name == [] then []
    else (if IsMarker(name[0]) then [] else [name[0]]) + CleanName(name[1..])
  }

  /** Removing markers distributes over concatenation, so characters keep their order. */
  lemma {:induction false} CleanNameConcat(a: string, b: string)
    ensures CleanName(a + b) == CleanName(a) + CleanName(b)
  {
    if a == [] {
      assert a + b == b;
    } else {
      assert (a + b)[1..] == a[1..] + b;
      CleanNameConcat(a[1..], b);
    }
  }

  /** A string without markers is left unchanged. */
  lemma {:induction false} CleanNameKeepsUnmarked(s: string)
    requires NoMarkers(s)
    ensures CleanName(s) == s
  {
    if s != [] {
      CleanNameKeepsUnmarked(s[1..]);
    }
  }

  lemma CleanNameIdempotent(s: string)
    ensures CleanName(CleanName(s)) == CleanName(s)
  {
    CleanNameKeepsUnmarked(CleanName(s));
  }

  /** Applied to a printed type reference, `cleanName` yields its bare type name. */
  lemma {:induction false} CleanNameOfInspect(t: TypeRef)
    requires NoMarkers(BaseName(t))
    ensures CleanName(Inspect(t)) == BaseName(t)
  {
    match t
    case Named(n) =>
      CleanNameKeepsUnmarked(n);
    case ListOf(item) =>
      CleanNameOfInspect(item);
      CleanNameConcat("[", Inspect(item));
      CleanNameConcat("[" + Inspect(item), "]");
    case NonNull(inner) =>
      CleanNameOfInspect(inner);
      CleanNameConcat(Inspect(inner), "!");
  }
}
