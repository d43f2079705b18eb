/** The parts of Python's string and POSIX path semantics that the converters
    rely on: `str.split()`, `str.split(sep)`, slicing with clamped bounds,
    ASCII `str.upper()`, `os.path.join`, `pathlib` names and stems,
    `str.endswith` and `str(int)`. */
module PyText {
  import opened Seqs

  /** `str.isspace()` for the characters Python's argument-less `str.split()` splits on. */
  predicate IsSpace(c: char)
  {
    ('\U{9}' <= c <= '\U{D}') || ('\U{1C}' <= c <= '\U{20}') || c == '\U{85}' || c == '\U{A0}'
    || c == '\U{1680}' || ('\U{2000}' <= c <= '\U{200A}') || c == '\U{2028}' || c == '\U{2029}'
    || c == '\U{202F}' || c == '\U{205F}' || c == '\U{3000}'
  }

  predicate NoSpace(t: string)
  {
    forall k :: 0 <= k < |t| ==> !IsSpace(t[k])
  }

  /** Length of the leading run of non-whitespace characters. */
  function WordLength(s: string): (n: nat)
    ensures n <= |s|
    ensures NoSpace(s[..n])
    ensures n == |s| || IsSpace(s[n])
  {
    if s == [] || IsSpace(s[0]) then 0
    else
      var n := 1 + WordLength(s[1..]);
      assert s[..n] == [s[0]] + s[1..][..n - 1];
      n
  }

  /** `s.split()`: the maximal runs of non-whitespace characters, in order. */
  function Tokens(s: string): (r: seq<string>)
    ensures forall i :: 0 <= i < |r| ==> |r[i]| > 0 && NoSpace(r[i])
    decreases |s|
  {
    if s == [] then []
    else if IsSpace(s[0]) then Tokens(s[1..])
    else
      var n := WordLength(s);
      [s[..n]] + Tokens(s[n..])
  }

  /** The characters of `s` that are not whitespace. */
  function NonSpace(s: string): string
  {
    if s == [] then [] else (if IsSpace(s[0]) then [] else [s[0]]) + NonSpace(s[1..])
  }

  lemma {:induction false} NonSpaceAppend(a: string, b: string)
    ensures NonSpace(a + b) == NonSpace(a) + NonSpace(b)
  {
    if a == [] {
      assert a + b == b;
    } else {
      assert (a + b)[1..] == a[1..] + b;
      NonSpaceAppend(a[1..], b);
    }
  }

  lemma {:induction false} NonSpaceOfWord(t: string)
    requires NoSpace(t)
    ensures NonSpace(t) == t
  {
    if t != [] {
      assert NoSpace(t[1..]) by {
        forall k | 0 <= k < |t[1..]| ensures !IsSpace(t[1..][k]) {
          assert t[1..][k] == t[k + 1];
        }
      }
      NonSpaceOfWord(t[1..]);
    }
  }

  /** Splitting on whitespace loses exactly the whitespace: the tokens glued back
      together are the non-whitespace characters of the line, in order. */
  lemma {:induction false} TokensKeepContent(s: string)
    ensures Flatten(Tokens(s)) == NonSpace(s)
    decreases |s|
  {
    if s == [] {
    } else if IsSpace(s[0]) {
      TokensKeepContent(s[1..]);
    } else {
      var n := WordLength(s);
      TokensKeepContent(s[n..]);
      assert s == s[..n] + s[n..];
      NonSpaceAppend(s[..n], s[n..]);
      NonSpaceOfWord(s[..n]);
      assert Tokens(s) == [s[..n]] + Tokens(s[n..]);
      assert ([s[..n]] + Tokens(s[n..]))[1..] == Tokens(s[n..]);
    }
  }

  /** Python's `s[n:]` for a non-negative `n`. */
  function Drop<T>(s: seq<T>, n: nat): (r: seq<T>)
    ensures |r| == if n <= |s| then |s| - n else 0
    ensures forall k :: 0 <= k < |r| ==> r[k] == s[n + k]
  {
    if n >= |s| then [] else s[n..]
  }

  /** Python's `s[i:j]` for non-negative bounds: both are clamped to the length. */
  function Slice<T>(s: seq<T>, i: nat, j: nat): (r: seq<T>)
    ensures |r| == if Min(j, |s|) <= Min(i, |s|) then 0 else Min(j, |s|) - Min(i, |s|)
    ensures forall k :: 0 <= k < |r| ==> r[k] == s[i + k]
  {
    var lo := Min(i, |s|);
    var hi := Min(j, |s|);
    if hi <= lo then [] else s[lo..hi]
  }

  function UpperChar(c: char): char
  {
    if 'a' <= c <= 'z' then (c as int - 'a' as int + 'A' as int) as char else c
  }

  /** `s.upper()` on ASCII letters. */
  function Upper(s: string): (r: string)
    ensures |r| == |s|
    ensures forall k :: 0 <= k < |s| ==> r[k] == UpperChar(s[k])
    ensures forall k :: 0 <= k < |s| ==> !('a' <= r[k] <= 'z')
  {
    seq(|s|, k requires 0 <= k < |s| => UpperChar(s[k]))
  }

  /** `posixpath.join(a, b)`. */
  function Join(a: string, b: string): string
  {
    if |b| > 0 && b[0] == '/' then b
    else if a == [] || a[|a| - 1] == '/' then a + b
    else a + "/" + b
  }

  /** The joined path ends with `b`, and starts with `a` unless `b` is absolute. */
  lemma JoinEnds(a: string, b: string)
    ensures var r := Join(a, b); |r| >= |b| && r[|r| - |b|..] == b
    ensures var r := Join(a, b); (b == [] || b[0] != '/') ==> |r| >= |a| && r[..|a|] == a
  {
  }

  /** `s.split(sep)`: always at least one piece, none containing `sep`. */
  function Split(s: string, sep: char): (r: seq<string>)
    ensures |r| >= 1
    ensures forall i :: 0 <= i < |r| ==> sep !in r[i]
  {
    if s == [] then [""]
    else
      var rest := Split(s[1..], sep);
      if s[0] == sep then [""] + rest else [[s[0]] + rest[0]] + rest[1..]
  }

  /** `sep.join(parts)`. */
  function JoinWith(parts: seq<string>, sep: char): string
  {
    if parts == [] then ""
    else if |parts| == 1 then parts[0]
    else parts[0] + [sep] + JoinWith(parts[1..], sep)
  }

  /** `sep.join(s.split(sep)) == s`. */
  lemma {:induction false} SplitJoin(s: string, sep: char)
    ensures JoinWith(Split(s, sep), sep) == s
  {
    if s != [] {
      var rest := Split(s[1..], sep);
      SplitJoin(s[1..], sep);
      if s[0] == sep {
        assert Split(s, sep) == [""] + rest;
        assert ([""] + rest)[1..] == rest;
      } else {
        var r := Split(s, sep);
        assert r == [[s[0]] + rest[0]] + rest[1..];
        if |rest| == 1 {
          assert s == [s[0]] + s[1..];
        } else {
          assert r[1..] == rest[1..];
          assert JoinWith(rest, sep) == rest[0] + [sep] + JoinWith(rest[1..], sep);
          assert s == [s[0]] + s[1..];
        }
      }
    }
  }

  lemma {:induction false} SplitNoSep(t: string, sep: char)
    requires sep !in t
    ensures Split(t, sep) == [t]
  {
    if t != [] {
      assert sep !in t[1..];
      SplitNoSep(t[1..], sep);
      assert t[0] != sep;
      assert t == [t[0]] + t[1..];
    }
  }

  lemma {:induction false} SplitAppend(s: string, sep: char, t: string)
    requires sep !in t
    ensures Split(s + [sep] + t, sep) == Split(s, sep) + [t]
  {
    if s == [] {
      assert s + [sep] + t == [sep] + t;
      assert ([sep] + t)[1..] == t;
      SplitNoSep(t, sep);
    } else {
      assert (s + [sep] + t)[1..] == s[1..] + [sep] + t;
      SplitAppend(s[1..], sep, t);
    }
  }

  function Last<T>(s: seq<T>): T
    requires |s| > 0
  {
    s[|s| - 1]
  }

  /** `os.path.join(a, b).split("/")[-1] == b` for a file name `b`. */
  lemma JoinLastComponent(a: string, b: string)
    requires b != [] && '/' !in b
    ensures Last(Split(Join(a, b), '/')) == b
  {
    if a == [] {
      assert Join(a, b) == b;
      SplitNoSep(b, '/');
    } else if a[|a| - 1] == '/' {
      var a' := a[..|a| - 1];
      assert a == a' + ['/'];
      assert Join(a, b) == a' + ['/'] + b;
      SplitAppend(a', '/', b);
    } else {
      assert Join(a, b) == a + ['/'] + b;
      SplitAppend(a, '/', b);
    }
  }

  /** For path components without `/`, with a non-empty second-to-last one, the
      two last pieces of `join(join(p, y), m).split("/")` are `y` and `m`. */
  lemma {:induction false} JoinTwoLastComponents(p: string, y: string, m: string)
    requires y != [] && '/' !in y && '/' !in m
    ensures var st := Split(Join(Join(p, y), m), '/');
      |st| >= 2 && st[|st| - 1] == m && st[|st| - 2] == y
  {
    var q := Join(p, y);
    JoinEnds(p, y);
    assert q[|q| - |y|..] == y;
    assert q[|q| - 1] == y[|y| - 1];
    assert q != [] && q[|q| - 1] != '/';
    assert Join(q, m) == q + ['/'] + m;
    SplitAppend(q, '/', m);
    JoinLastComponent(p, y);
  }

  /** Index of the last `c` in `s`, or -1 (`str.rfind`). */
  function RFind(s: string, c: char): (r: int)
    ensures -1 <= r < |s|
    ensures r == -1 ==> c !in s
    ensures r >= 0 ==> s[r] == c && c !in s[r + 1..]
  {
    if s == [] then -1
    else if s[|s| - 1] == c then |s| - 1
    else
      var r := RFind(s[..|s| - 1], c);
      assert s[r + 1..] == s[..|s| - 1][r + 1..] + [s[|s| - 1]];
      r
  }

  /** `PurePosixPath(p).name` for a path whose last component is a file name. */
  function BaseName(p: string): string
  {
    Last(Split(p, '/'))
  }

  /** `PurePath.stem` of a file name: the name without its final suffix. */
  function Stem(name: string): (r: string)
    ensures |r| <= |name| && r == name[..|r|]
  {
    var i := RFind(name, '.');
    if 0 < i < |name| - 1 then name[..i] else name
  }

  lemma StemDropsSuffix(base: string, ext: string)
    requires base != [] && ext != [] && '.' !in ext
    ensures Stem(base + "." + ext) == base
  {
    var name := base + "." + ext;
    var i := RFind(name, '.');
    assert name[|base|] == '.';
    assert name[|base| + 1..] == ext;
    assert name[..|base|] == base;
  }

  predicate EndsWith(s: string, suffix: string)
  {
    |suffix| <= |s| && s[|s| - |suffix|..] == suffix
  }

  /** A suffix of the joined-on component is a suffix of the joined path. */
  lemma JoinKeepsSuffix(a: string, b: string, suffix: string)
    requires EndsWith(b, suffix)
    ensures EndsWith(Join(a, b), suffix)
  {
    JoinEnds(a, b);
    var r := Join(a, b);
    assert r[|r| - |suffix|..] == r[|r| - |b|..][|b| - |suffix|..];
  }

  function DigitChar(d: nat): char
    requires d < 10
  {
    ('0' as int + d) as char
  }

  predicate IsDigit(c: char) { '0' <= c <= '9' }

  predicate AllDigits(s: string) { forall k :: 0 <= k < |s| ==> IsDigit(s[k]) }

  /** The value of a run of decimal digits. */
  function DigitsValue(s: string): nat
    requires AllDigits(s)
  {
    if s == [] then 0 else 10 * DigitsValue(s[..|s| - 1]) + (s[|s| - 1] as int - '0' as int)
  }

  /** `str(n)` for a natural number. */
  function NatToString(n: nat): (r: string)
    ensures |r| > 0 && AllDigits(r)
    ensures |r| > 1 ==> r[0] != '0'
  {
    if n < 10 then [DigitChar(n)] else NatToString(n / 10) + [DigitChar(n % 10)]
  }

  /** `str(n)` for an integer. */
  function IntToString(n: int): (r: string)
    ensures |r| > 0
    ensures n >= 0 <==> r[0] != '-'
  {
    if n < 0 then "-" + NatToString(-n) else NatToString(n)
  }

  /** Reading back the decimal text of a natural number gives the number. */
  lemma {:induction false} NatToStringRoundTrip(n: nat)
    ensures DigitsValue(NatToString(n)) == n
  {
    var r := NatToString(n);
    if n >= 10 {
      NatToStringRoundTrip(n / 10);
      assert r[..|r| - 1] == NatToString(n / 10);
    }
  }
}
