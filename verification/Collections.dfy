/** Facts about texts and finite sets that several components need. */
module Collections {
  import opened Protocol

  /** The texts one after another. */
  function Join(texts: seq<string>): string {
    if texts == [] then "" else texts[0] + Join(texts[1..])
  }

  /** Where c first occurs. */
  function FirstIndexOf(s: string, c: char): (index: Option<nat>)
    ensures index.Some? ==> index.value < |s|
  {
    if s == "" then None
    else if s[0] == c then Some(0)
    else match FirstIndexOf(s[1..], c) case None => None case Some(i) => Some(i + 1)
  }

  lemma {:induction false} IndexAtFirst(a: string, c: char, b: string)
    requires c !in a
    ensures FirstIndexOf(a + [c] + b, c) == Some(|a|)
    decreases |a|
  {
    var s := a + [c] + b;
    if a != "" {
      IndexAtFirst(a[1..], c, b);
      assert s[1..] == a[1..] + [c] + b;
    }
  }

  lemma {:induction false} SubsetSize<T>(a: set<T>, b: set<T>)
    requires a <= b
    ensures |a| <= |b|
    decreases a
  {
    if a != {} {
      var x :| x in a;
      SubsetSize(a - {x}, b - {x});
    }
  }
}
