/** Texts joined by a separator. */
module Text {
  /** The part before the first separator is determined by the whole. */
  lemma {:induction false} FirstPart(a: string, x: string, b: string, y: string, sep: char)
    requires a + ([sep] + x) == b + ([sep] + y)
    requires sep !in a && sep !in b
    ensures a == b && x == y
    decreases |a|
  {
    var s, t := a + ([sep] + x), b + ([sep] + y);
    assert s[0] == t[0];
    if a != [] && b != [] {
      assert s[1..] == a[1..] + ([sep] + x) && t[1..] == b[1..] + ([sep] + y);
      FirstPart(a[1..], x, b[1..], y, sep);
      assert a == [a[0]] + a[1..] && b == [b[0]] + b[1..];
    } else {
      assert a == [] && b == [];
      assert x == s[1..] && y == t[1..];
    }
  }

  /** So is the part after the last one. */
  lemma {:induction false} LastPart(x: string, a: string, y: string, b: string, sep: char)
    requires x + ([sep] + a) == y + ([sep] + b)
    requires sep !in a && sep !in b
    ensures x == y && a == b
    decreases |a|
  {
    var s, t := x + ([sep] + a), y + ([sep] + b);
    var n := |s| - 1;
    assert s[n] == t[n];
    if a != [] && b != [] {
      var i, j := |a| - 1, |b| - 1;
      assert s[..n] == x + ([sep] + a[..i]) && t[..n] == y + ([sep] + b[..j]);
      LastPart(x, a[..i], y, b[..j], sep);
      assert a == a[..i] + [a[i]] && b == b[..j] + [b[j]];
    } else {
      assert a == [] && b == [];
      assert x == s[..n] && y == t[..n];
    }
  }
}
