// Channel names and the files they stand for.
module Names {
  const NAME_MAX := 64
  const PREFIX := "psmsgr."
  const STATE := ".state"
  const LOCK := ".lock"
  const TMP := ".tmp."

  predicate NameChar(c: char) {
    'A' <= c <= 'Z' || 'a' <= c <= 'z' || '0' <= c <= '9' || c in "_-."
  }

  predicate WellFormed(name: string) {
    1 <= |name| <= NAME_MAX && name[0] != '.' && forall i :: 0 <= i < |name| ==> NameChar(name[i])
  }

  /** name_valid. */
  method NameValid(name: string) returns (ok: bool)
    ensures ok <==> WellFormed(name)
  {
    if name == "" || name[0] == '.' { return false; }
    var i := 0;
    while i < |name|
      invariant 0 <= i <= |name| && i <= NAME_MAX
      invariant forall j :: 0 <= j < i ==> NameChar(name[j])
    {
      if i == NAME_MAX || !NameChar(name[i]) { return false; }
      i := i + 1;
    }
    ok := true;
  }

  function Data(name: string): string {
    PREFIX + name + STATE
  }

  function Lock(name: string): string {
    PREFIX + name + LOCK
  }

  /** A file that create_file is still filling; mkstemp chose the suffix. */
  function Tmp(name: string, suffix: string): string {
    Data(name) + TMP + suffix
  }

  predicate Suffix(s: string) {
    |s| == 6 && '.' !in s
  }

  /** The test of remove_stale_tmp, for the channel with data file `base`. */
  predicate Stale(base: string, n: string) {
    && base <= n
    && TMP <= n[|base|..]
    && Suffix(n[|base| + |TMP|..])
  }

  lemma StaleIsTmp(a: string, n: string)
    ensures Stale(Data(a), n) <==> exists s :: Suffix(s) && n == Tmp(a, s)
  {
    var base := Data(a);
    if Stale(base, n) {
      var s := n[|base| + |TMP|..];
      assert n == base + n[|base|..];
      assert n[|base|..] == TMP + s;
      assert n == Tmp(a, s);
    }
    if exists s :: Suffix(s) && n == Tmp(a, s) {
      var s :| Suffix(s) && n == Tmp(a, s);
      assert n[|base|..] == TMP + s;
      assert n[|base| + |TMP|..] == s;
    }
  }

  lemma SameMiddle(p: string, a: string, b: string, x: string, y: string)
    requires p + a + x == p + b + y && |x| == |y|
    ensures a == b && x == y
  {
    var n := p + a + x;
    assert a == n[|p|..|p| + |a|];
    assert b == n[|p|..|p| + |b|];
    assert x == n[|p| + |a|..];
    assert y == n[|p| + |b|..];
  }

  lemma TmpOf(a: string, s: string)
    ensures Tmp(a, s) == PREFIX + a + (STATE + TMP + s)
  {}

  lemma TmpInjective(a: string, b: string, s: string, t: string)
    requires Suffix(s) && Suffix(t) && Tmp(a, s) == Tmp(b, t)
    ensures a == b && s == t
  {
    TmpOf(a, s);
    TmpOf(b, t);
    SameMiddle(PREFIX, a, b, STATE + TMP + s, STATE + TMP + t);
    assert s == (STATE + TMP + s)[|STATE + TMP|..];
    assert t == (STATE + TMP + t)[|STATE + TMP|..];
  }

  /** The last six characters of a temporary file hold no dot; of a data or lock file they do. */
  lemma DotNearEnd(a: string, b: string, s: string)
    requires Suffix(s)
    ensures Tmp(a, s) != Data(b) && Tmp(a, s) != Lock(b)
  {
    var n := Tmp(a, s);
    assert n[|n| - 6] == s[0] && n[|n| - 5] == s[1];
    var d, l := Data(b), Lock(b);
    assert d[|d| - 6] == '.' && l[|l| - 5] == '.';
  }

  /** Different files for different channels, and for the different purposes of one. */
  lemma NameSpaces(a: string, b: string)
    ensures Data(a) == Data(b) <==> a == b
    ensures Lock(a) == Lock(b) <==> a == b
    ensures Data(a) != Lock(b)
  {
    if Data(a) == Data(b) { SameMiddle(PREFIX, a, b, STATE, STATE); }
    if Lock(a) == Lock(b) { SameMiddle(PREFIX, a, b, LOCK, LOCK); }
    var d, l := Data(a), Lock(b);
    assert d[|d| - 1] == 'e' && l[|l| - 1] == 'k';
  }

  /** Whatever names the channels have: only the channel's own temporary files pass the test. */
  lemma StaleSeparates(a: string, b: string, t: string)
    requires Suffix(t)
    ensures !Stale(Data(a), Data(b)) && !Stale(Data(a), Lock(b))
    ensures Stale(Data(a), Tmp(b, t)) <==> a == b
  {
    StaleIsTmp(a, Data(b));
    StaleIsTmp(a, Lock(b));
    StaleIsTmp(a, Tmp(b, t));
    forall s | Suffix(s)
      ensures Data(b) != Tmp(a, s) && Lock(b) != Tmp(a, s)
      ensures Tmp(b, t) == Tmp(a, s) ==> a == b
    {
      DotNearEnd(a, b, s);
      if Tmp(b, t) == Tmp(a, s) { TmpInjective(a, b, s, t); }
    }
  }

  /** remove_stale_tmp over a directory: exactly the channel's own temporary files go. */
  method RemoveStaleTmp(name: string, listing: seq<string>) returns (removed: set<string>)
    ensures forall n :: n in removed <==> n in listing && exists s :: Suffix(s) && n == Tmp(name, s)
    ensures forall b :: Data(b) !in removed && Lock(b) !in removed
    ensures forall b, s :: Suffix(s) && Tmp(b, s) in removed ==> b == name
  {
    removed := {};
    var base := Data(name);
    for k := 0 to |listing|
      invariant forall n :: n in removed <==> n in listing[..k] && Stale(base, n)
    {
      var n := listing[k];
      if base <= n && TMP <= n[|base|..] {
        var suffix := n[|base| + |TMP|..];
        if |suffix| == 6 && '.' !in suffix {
          removed := removed + {n};
        }
      }
    }
    forall n
      ensures n in removed <==> n in listing && exists s :: Suffix(s) && n == Tmp(name, s)
    {
      StaleIsTmp(name, n);
    }
    forall b
      ensures Data(b) !in removed && Lock(b) !in removed
    {
      StaleSeparates(name, b, "000000");
    }
    forall b, s | Suffix(s) && Tmp(b, s) in removed
      ensures b == name
    {
      StaleSeparates(name, b, s);
    }
  }
}
