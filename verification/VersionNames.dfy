/** Names of versions: how the store joins and orders them. */
module VersionNames {
  /** String order, character by character. */
  predicate Less(a: string, b: string) {
    if b == "" then false
    else if a == "" then true
    else if a[0] != b[0] then a[0] < b[0]
    else Less(a[1..], b[1..])
  }

  /** It is asymmetric, and what is not less than what is not less is not less. */
  lemma {:induction false} LessOrders(a: string, b: string, c: string)
    ensures !(Less(a, b) && Less(b, a))
    ensures !Less(a, b) && !Less(b, c) ==> !Less(a, c)
    decreases |a| + |b| + |c|
  {
    if a != "" && b != "" {
      LessOrders(a[1..], b[1..], if c == "" then "" else c[1..]);
    }
  }

  /** The key a version is filed under while the store looks for duplicates. */
  function Joined(recipe: string, version: string): string {
    recipe + "/" + version
  }

  /** Recipe ids without a slash leave nothing to confuse. */
  lemma SlashFreeNamesAreExact(a: string, b: string, c: string, d: string)
    requires '/' !in a && '/' !in c
    ensures Joined(a, b) == Joined(c, d) <==> a == c && b == d
  {
    var s, t := Joined(a, b), Joined(c, d);
    assert s[|a|] == '/' && t[|c|] == '/';
    assert |a| < |c| ==> t[|a|] == c[|a|] && c[|a|] in c;
    assert |c| < |a| ==> s[|c|] == a[|c|] && a[|c|] in a;
    if s == t {
      assert s[..|a|] == a && t[..|c|] == c;
      assert s[|a| + 1..] == b && t[|c| + 1..] == d;
    }
  }

  /** Two versions of two recipes can be taken for one. */
  lemma JoinedNamesCollide()
    ensures Joined("a/b", "c") == Joined("a", "b/c")
  {
    assert Joined("a/b", "c") == "a/b/c" == Joined("a", "b/c");
  }
}
