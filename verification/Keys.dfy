/** Keys made of two names with a slash between them, and lists without repetition. */
module Keys {

  predicate Slashless(s: string) { '/' !in s }

  function SlashKey(first: string, second: string): string { first + "/" + second }

  /** A first name without a slash makes the key readable in one way only. */
  lemma SlashKeyInjective(a: string, b: string, c: string, d: string)
    requires Slashless(a) && Slashless(c)
    ensures SlashKey(a, b) == SlashKey(c, d) <==> a == c && b == d
  {
    if SlashKey(a, b) == SlashKey(c, d) {
      var k := SlashKey(a, b);
      assert k[|a|] == '/' && k[|c|] == '/';
      assert forall i :: 0 <= i < |a| ==> k[i] == a[i] != '/';
      assert forall i :: 0 <= i < |c| ==> k[i] == c[i] != '/';
      assert k[..|a|] == a && k[..|c|] == c;
      assert k[|a| + 1..] == b && k[|c| + 1..] == d;
    }
  }

  ghost predicate NoDup<T>(s: seq<T>) {
    forall i, j :: 0 <= i < j < |s| ==> s[i] != s[j]
  }

  lemma NoDupTail<T>(s: seq<T>)
    requires NoDup(s) && s != []
    ensures NoDup(s[1..]) && s[0] !in s[1..]
  {
  }
}
