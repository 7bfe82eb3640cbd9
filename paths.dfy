/**
 * The three `os.path` operations the repository uses, on `/`-separated
 * strings, as POSIX `posixpath` defines them.
 */
module Paths {

  /** `os.path.join(a, b)`: an absolute `b` replaces `a`; otherwise one `/` is put between them unless `a` is empty or already ends with one. */
  function Join(a: string, b: string): string
  {
    if b != [] && b[0] == '/' then b
    else if a == [] || a[|a| - 1] == '/' then a + b
    else a + "/" + b
  }

  /** The index just past the last `/` of `p` (`p.rfind('/') + 1`), 0 when there is none. */
  function SepEnd(p: string): (i: nat)
    ensures i <= |p|
    ensures '/' !in p[i..]
    ensures i > 0 ==> p[i - 1] == '/'
    decreases |p|
  {
    if p == [] then 0
    else if p[|p| - 1] == '/' then |p|
    else
      var i := SepEnd(p[..|p| - 1]);
      assert p[i..] == p[..|p| - 1][i..] + [p[|p| - 1]];
      i
  }

  /** `os.path.basename(p)`: what follows the last `/`. */
  function Basename(p: string): string
  {
    p[SepEnd(p)..]
  }

  predicate AllSlashes(s: string)
  {
    forall i :: 0 <= i < |s| ==> s[i] == '/'
  }

  /** `s.rstrip('/')`. */
  function RStripSlashes(s: string): (r: string)
    ensures r <= s
    ensures r == [] || r[|r| - 1] != '/'
    decreases |s|
  {
    if s != [] && s[|s| - 1] == '/' then RStripSlashes(s[..|s| - 1]) else s
  }

  /** `os.path.dirname(p)`: up to the last `/`, with trailing slashes removed unless it is all slashes. */
  function Dirname(p: string): string
  {
    var head := p[..SepEnd(p)];
    if head != [] && !AllSlashes(head) then RStripSlashes(head) else head
  }

  /** Appending slash-free text does not move the last separator. */
  lemma {:induction false} SepEndAppend(x: string, n: string)
    requires '/' !in n
    ensures SepEnd(x + n) == SepEnd(x)
    decreases |n|
  {
    if n != [] {
      var m := n[..|n| - 1];
      assert (x + n)[..|x + n| - 1] == x + m;
      assert '/' !in m by {
        forall k | 0 <= k < |m| ensures m[k] != '/' { assert m[k] == n[k]; }
      }
      SepEndAppend(x, m);
    } else {
      assert x + n == x;
    }
  }

  /** Joining a slash-free last component and taking the basename gives the component back. */
  lemma BasenameOfJoin(a: string, n: string)
    requires '/' !in n
    ensures Basename(Join(a, n)) == n
  {
    if n != [] && n[0] == '/' {
    } else if a == [] || a[|a| - 1] == '/' {
      SepEndAppend(a, n);
      if a != [] {
        assert SepEnd(a) == |a|;
      }
      assert (a + n)[|a|..] == n;
    } else {
      SepEndAppend(a + "/", n);
      assert (a + "/" + n)[|a| + 1..] == n;
    }
  }

  /** Joining onto a path that does not end in `/` a component that does not start with one puts exactly one `/` between them. */
  lemma JoinPlain(a: string, b: string)
    requires a != [] && a[|a| - 1] != '/'
    requires b == [] || b[0] != '/'
    ensures Join(a, b) == a + "/" + b
  {
  }

  /** The directory of a path is one of its prefixes. */
  lemma DirnameIsPrefix(p: string)
    ensures Dirname(p) <= p
  {
  }

  /** A name free of `/` is its own basename. */
  lemma BasenameOfName(n: string)
    requires '/' !in n
    ensures Basename(n) == n
  {
    SepEndAppend([], n);
    assert [] + n == n;
  }
}
