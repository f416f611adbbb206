/** String and path helpers the vectorisation driver relies on: Python's
    `str.replace` for one character, POSIX `os.path.join` of two components,
    and the suffix rule `np.save` applies to a file name. */
module Paths {

  /** Number of occurrences of `c` in `s`. */
  function Count(s: string, c: char): (n: nat)
    ensures n <= |s|
    ensures n == 0 <==> c !in s
  {
    if s == [] then 0 else (if s[0] == c then 1 else 0) + Count(s[1..], c)
  }

  /** `s.replace(c, rep)`: every occurrence of the character `c` is replaced by
      the string `rep`, everything else is kept in order. */
  function Replace(s: string, c: char, rep: string): (r: string)
    ensures c !in rep ==> c !in r
    ensures c !in s ==> r == s
    ensures |rep| == 1 ==> |r| == |s| && forall i :: 0 <= i < |s| ==> r[i] == if s[i] == c then rep[0] else s[i]
  {
    if s == [] then []
    else (if s[0] == c then rep else [s[0]]) + Replace(s[1..], c, rep)
  }

  /** Each occurrence of `c` grows the string by `|rep| - 1` characters. */
  lemma {:induction false} ReplaceLength(s: string, c: char, rep: string)
    ensures |Replace(s, c, rep)| == |s| + Count(s, c) * (|rep| - 1)
  {
    if s != [] {
      ReplaceLength(s[1..], c, rep);
      assert Replace(s, c, rep) == (if s[0] == c then rep else [s[0]]) + Replace(s[1..], c, rep);
      if s[0] == c {
        MulSucc(Count(s[1..], c), |rep| - 1);
      }
    }
  }

  lemma MulSucc(k: int, d: int)
    ensures (k + 1) * d == k * d + d
  {
  }

  /** A character `d` other than `c` that does not occur in `rep` occurs in the
      result of the replacement exactly when it occurs in `s`. */
  lemma {:induction false} ReplaceKeepsOther(s: string, c: char, rep: string, d: char)
    requires d != c && d !in rep
    ensures d in Replace(s, c, rep) <==> d in s
  {
    if s != [] {
      ReplaceKeepsOther(s[1..], c, rep, d);
      assert Replace(s, c, rep) == (if s[0] == c then rep else [s[0]]) + Replace(s[1..], c, rep);
      assert s == [s[0]] + s[1..];
    }
  }

  lemma AppendAssoc<T>(a: seq<T>, b: seq<T>, c: seq<T>)
    ensures a + b + c == a + (b + c)
  {
  }

  predicate EndsWith(s: string, suffix: string) {
    |suffix| <= |s| && s[|s| - |suffix|..] == suffix
  }

  /** `os.path.join(dir, name)` on POSIX: an absolute `name` discards `dir`;
      otherwise a '/' is inserted unless `dir` is empty or already ends in one. */
  function Join(dir: string, name: string): (p: string)
    ensures EndsWith(p, name)
  {
    if |name| > 0 && name[0] == '/' then name
    else if dir == [] || dir[|dir| - 1] == '/' then dir + name
    else dir + "/" + name
  }

  /** Two relative names joined to the same directory give the same path
      exactly when they are the same name. */
  lemma JoinInjective(dir: string, a: string, b: string)
    requires a == [] || a[0] != '/'
    requires b == [] || b[0] != '/'
    ensures Join(dir, a) == Join(dir, b) <==> a == b
  {
    var d := if dir == [] || dir[|dir| - 1] == '/' then dir else dir + "/";
    assert Join(dir, a) == d + a && Join(dir, b) == d + b;
    assert a == (d + a)[|d|..];
    assert b == (d + b)[|d|..];
  }

  lemma EndsWithTrans(a: string, b: string, c: string)
    requires EndsWith(a, b) && EndsWith(b, c)
    ensures EndsWith(a, c)
  {
    assert a[|a| - |c|..] == a[|a| - |b|..][|b| - |c|..];
  }

  /** The file `np.save(path, ...)` writes: ".npy" is appended unless the path
      already ends with it. */
  function NpSavePath(path: string): (p: string)
    ensures EndsWith(p, ".npy")
    ensures EndsWith(path, ".npy") ==> p == path
    ensures !EndsWith(path, ".npy") ==> p != path
  {
    if EndsWith(path, ".npy") then path else path + ".npy"
  }
}
