// Small value types and sequence facts shared by the other modules.
module Common {

  datatype Option<+T> = None | Some(value: T)

  /** No element occurs twice. */
  ghost predicate Distinct<T>(s: seq<T>) {
    forall i, j :: 0 <= i < j < |s| ==> s[i] != s[j]
  }

  function Elements(s: seq<string>): set<string> {
    set x | x in s
  }

  /** The ASCII characters Python's `str.isspace` accepts. */
  predicate IsSpace(c: char) {
    c == ' ' || '\t' <= c <= '\r' || '\U{1C}' <= c <= '\U{1F}'
  }

  function Lower(c: char): char {
    if 'A' <= c <= 'Z' then c + ('a' - 'A') else c
  }

  /** Alphabetical order of strings, as Python compares `str` values. */
  predicate StringLess(a: string, b: string) {
    if b == "" then false
    else if a == "" then true
    else a[0] < b[0] || (a[0] == b[0] && StringLess(a[1..], b[1..]))
  }

  lemma {:induction false} StringLessIsStrict(a: string, b: string)
    ensures !(StringLess(a, b) && StringLess(b, a))
    ensures a != b ==> StringLess(a, b) || StringLess(b, a)
    ensures !StringLess(a, a)
  {
    if a != "" && b != "" {
      StringLessIsStrict(a[1..], b[1..]);
      StringLessIsStrict(a[1..], a[1..]);
      assert a == [a[0]] + a[1..] && b == [b[0]] + b[1..];
    } else if a != "" {
      StringLessIsStrict(a[1..], a[1..]);
    }
  }

  lemma {:induction false} StringLessIsTransitive(a: string, b: string, c: string)
    requires StringLess(a, b) && StringLess(b, c)
    ensures StringLess(a, c)
  {
    if a != "" && a[0] == b[0] && b[0] == c[0] {
      StringLessIsTransitive(a[1..], b[1..], c[1..]);
    }
  }

  /** The first place where two strings differ decides, and a prefix comes first. */
  lemma {:induction false} StringLessMeans(a: string, b: string)
    ensures StringLess(a, b) <==> exists n :: 0 <= n <= |a| && n < |b| && a[..n] == b[..n] && (n == |a| || a[n] < b[n])
  {
    if a != "" && b != "" && a[0] == b[0] {
      StringLessMeans(a[1..], b[1..]);
      if StringLess(a, b) {
        var n :| 0 <= n <= |a[1..]| && n < |b[1..]| && a[1..][..n] == b[1..][..n] && (n == |a[1..]| || a[1..][n] < b[1..][n]);
        assert a[..n + 1] == [a[0]] + a[1..][..n] && b[..n + 1] == [b[0]] + b[1..][..n];
        assert n + 1 == |a| || a[n + 1] < b[n + 1];
      }
      if n :| 0 <= n <= |a| && n < |b| && a[..n] == b[..n] && (n == |a| || a[n] < b[n]) {
        assert a[1..][..n - 1] == a[..n][1..] && b[1..][..n - 1] == b[..n][1..];
        assert n - 1 == |a[1..]| || a[1..][n - 1] < b[1..][n - 1];
      }
    } else if a != "" && b != "" {
      assert a[..0] == b[..0];
      if n :| 0 <= n <= |a| && n < |b| && a[..n] == b[..n] && (n == |a| || a[n] < b[n]) {
        assert n > 0 ==> a[..n][0] == b[..n][0];
      }
    } else {
      assert a[..0] == b[..0];
    }
  }

  /** `a + ":" + k` can be read back when `k` has no colon. */
  predicate ColonFree(k: string) {
    ':' !in k
  }

  lemma QualifiedNameIsInjective(a: string, k: string, b: string, l: string)
    requires ColonFree(k) && ColonFree(l)
    requires a + ":" + k == b + ":" + l
    ensures a == b && k == l
  {
    ColonPosition(a, k);
    ColonPosition(b, l);
    var n := a + ":" + k;
    assert n[..|a|] == a && n[..|b|] == b;
    assert n[|a| + 1..] == k;
    assert (b + ":" + l)[|b| + 1..] == l;
  }

  /** The last colon of a qualified name is the separator. */
  lemma ColonPosition(a: string, k: string)
    requires ColonFree(k)
    ensures var n := a + ":" + k;
      n[|a|] == ':' && forall i :: |a| < i < |n| ==> n[i] != ':'
  {
    var n := a + ":" + k;
    forall i | |a| < i < |n|
      ensures n[i] != ':'
    {
      assert n[i] == k[i - |a| - 1];
    }
  }
}
