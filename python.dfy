/*
 * The small part of Python's runtime that the modelled code leans on:
 * exceptions (as an error kind carried by a Result), str.lower(), str(int),
 * the substring test `in`, and the posix path helpers of os.path and pathlib.
 */
module Python {

  /** The exception kinds the modelled code raises (messages are not modelled). */
  datatype Error =
    | ValueError
    | NotImplementedError
    | AttributeError
    | TypeError
    | AssertionError
    | KeyError

  datatype Option<+T> = None | Some(value: T)

  /** A value, or the exception raised while computing it. */
  datatype Result<+T> = Ok(value: T) | Err(error: Error) {
    predicate IsFailure() {
      Err?
    }

    function PropagateFailure<U>(): Result<U>
      requires Err?
    {
      Err(error)
    }

    function Extract(): T
      requires Ok?
    {
      value
    }
  }

  // ---------------------------------------------------------------- strings

  /** str.lower() restricted to ASCII letters. */
  function LowerChar(c: char): char {
    if 'A' <= c <= 'Z' then (c as int + 32) as char else c
  }

  function Lower(s: string): (r: string)
    ensures |r| == |s|
    ensures forall i :: 0 <= i < |s| ==> r[i] == LowerChar(s[i])
  {
    seq(|s|, i requires 0 <= i < |s| => LowerChar(s[i]))
  }

  /** Lowering twice is lowering once: the enums' parsers may be fed their own lower-cased input. */
  lemma LowerIdempotent(s: string)
    ensures Lower(Lower(s)) == Lower(s)
  {
    assert forall i :: 0 <= i < |s| ==> LowerChar(LowerChar(s[i])) == LowerChar(s[i]);
  }

  function DigitChar(d: nat): char
    requires d < 10
  {
    "0123456789"[d]
  }

  function NatToString(n: nat): (r: string)
    ensures |r| >= 1
    ensures forall i :: 0 <= i < |r| ==> '0' <= r[i] <= '9'
    decreases n
  {
    if n < 10 then [DigitChar(n)] else NatToString(n / 10) + [DigitChar(n % 10)]
  }

  /** str(i) for a Python int. */
  function IntToString(i: int): (r: string)
    ensures |r| >= 1
    ensures r[0] == '-' <==> i < 0
  {
    if i < 0 then "-" + NatToString(-i) else NatToString(i)
  }

  predicate StartsWith(s: string, prefix: string) {
    |prefix| <= |s| && s[..|prefix|] == prefix
  }

  predicate EndsWith(s: string, suffix: string) {
    |suffix| <= |s| && s[|s| - |suffix|..] == suffix
  }

  /** Python's `sub in s` on strings. */
  predicate Contains(s: string, sub: string)
    decreases |s|
  {
    StartsWith(s, sub) || (s != [] && Contains(s[1..], sub))
  }

  lemma {:induction false} ContainsAt(s: string, sub: string, i: nat)
    requires i + |sub| <= |s| && s[i..i + |sub|] == sub
    ensures Contains(s, sub)
    decreases i
  {
    if i == 0 {
      assert StartsWith(s, sub);
    } else {
      assert s[1..][i - 1..i - 1 + |sub|] == s[i..i + |sub|];
      ContainsAt(s[1..], sub, i - 1);
    }
  }

  lemma EndsWithContains(s: string, suffix: string)
    requires EndsWith(s, suffix)
    ensures Contains(s, suffix)
  {
    ContainsAt(s, suffix, |s| - |suffix|);
  }

  /** The text between the double quotes Quote puts around it, if `s` is quoted. */
  function Unquote(s: string): (r: Option<string>)
    ensures r.Some? ==> |s| >= 2 && s == "\"" + r.value + "\""
  {
    if |s| >= 2 && s[0] == '"' && s[|s| - 1] == '"' then
      var body := s[1..|s| - 1];
      assert s == "\"" + body + "\"";
      Some(body)
    else None
  }

  function Quote(s: string): string {
    "\"" + s + "\""
  }

  lemma UnquoteQuote(s: string)
    ensures Unquote(Quote(s)) == Some(s)
  {
    var q := Quote(s);
    assert q[1..|q| - 1] == s;
  }

  /** Index of the last occurrence of `c` in `s`, or -1 (Python's str.rfind on one character). */
  function LastIndexOf(s: string, c: char): (r: int)
    ensures -1 <= r < |s|
    ensures r >= 0 ==> s[r] == c
    ensures forall j :: r < j < |s| ==> s[j] != c
  {
    if s == [] then -1
    else if s[|s| - 1] == c then |s| - 1
    else LastIndexOf(s[..|s| - 1], c)
  }

  // ------------------------------------------------------------ posix paths

  /** os.path.basename: what follows the last '/'. */
  function Basename(p: string): (r: string)
    ensures '/' !in r
    ensures EndsWith(p, r)
  {
    var i := LastIndexOf(p, '/');
    var r := p[i + 1..];
    assert p[|p| - |r|..] == r;
    r
  }

  lemma BasenameAppend(front: string, s: string)
    requires '/' !in s
    ensures Basename(front + s) == Basename(front) + s
  {
    LastIndexOfAppend(front, s, '/');
    var i := LastIndexOf(front, '/');
    assert (front + s)[i + 1..] == front[i + 1..] + s;
  }

  predicate AllSlashes(s: string) {
    forall i :: 0 <= i < |s| ==> s[i] == '/'
  }

  function StripTrailingSlashes(s: string): (r: string)
    ensures |r| <= |s| && r == s[..|r|]
  {
    if s != [] && s[|s| - 1] == '/' then StripTrailingSlashes(s[..|s| - 1]) else s
  }

  /** os.path.dirname: everything up to the last '/', without trailing slashes unless it is all slashes. */
  function Dirname(p: string): string {
    var head := p[..LastIndexOf(p, '/') + 1];
    if head != [] && !AllSlashes(head) then StripTrailingSlashes(head) else head
  }

  /** os.path.join(a, b) on posix. */
  function Join(a: string, b: string): (r: string)
    ensures StartsWith(b, "/") ==> r == b
    ensures EndsWith(r, b)
  {
    if StartsWith(b, "/") then b
    else if a == [] || EndsWith(a, "/") then a + b
    else a + "/" + b
  }

  /** os.path.splitext: the root and the extension (the extension is empty unless the last dot follows a non-dot character of the last component). */
  function SplitExt(p: string): (r: (string, string))
    ensures r.0 + r.1 == p
    ensures r.1 == [] || (r.1[0] == '.' && '/' !in r.1)
  {
    var sep := LastIndexOf(p, '/');
    var dot := LastIndexOf(p, '.');
    if dot > sep && exists j :: sep < j < dot && p[j] != '.' then
      assert p[dot..][0] == '.';
      assert forall k :: 0 <= k < |p[dot..]| ==> p[dot..][k] == p[dot + k];
      (p[..dot], p[dot..])
    else (p, "")
  }

  /** pathlib's PurePath.name (the path is taken in its normalised printed form, where "." is the empty path). */
  function PathName(p: string): string {
    if p == "." then "" else Basename(p)
  }

  /** pathlib's PurePath.suffix of a file name: from the last dot, unless that dot starts or ends the name. */
  function NameSuffix(name: string): (r: string)
    ensures EndsWith(name, r)
    ensures r == [] || (|r| >= 2 && r[0] == '.')
  {
    var i := LastIndexOf(name, '.');
    if 0 < i < |name| - 1 then name[i..] else ""
  }

  /** pathlib's PurePath.stem of a file name: the name without its suffix. */
  function NameStem(name: string): (r: string)
    ensures r + NameSuffix(name) == name
  {
    name[..|name| - |NameSuffix(name)|]
  }

  /** pathlib's PurePath.with_suffix(s): a path with an empty name raises ValueError. */
  function WithSuffix(p: string, s: string): (r: Result<string>)
    ensures r.Err? <==> PathName(p) == ""
    ensures r.Err? ==> r.error == ValueError
  {
    var name := PathName(p);
    if name == "" then Err(ValueError)
    else
      var suffix := NameSuffix(name);
      Ok(p[..|p| - |suffix|] + s)
  }

  /** A suffix that with_suffix can put on and the name's suffix then reads back: a dot and some non-dot, non-slash characters. */
  predicate PlainSuffix(s: string) {
    |s| >= 2 && s[0] == '.' && forall i :: 1 <= i < |s| ==> s[i] != '.' && s[i] != '/'
  }

  lemma LastIndexOfAppend(a: string, b: string, c: char)
    ensures c !in b ==> LastIndexOf(a + b, c) == LastIndexOf(a, c)
    ensures c in b ==> LastIndexOf(a + b, c) == |a| + LastIndexOf(b, c)
  {
    var ab := a + b;
    var ra, rb, r := LastIndexOf(a, c), LastIndexOf(b, c), LastIndexOf(ab, c);
    if c in b {
      var k :| 0 <= k < |b| && b[k] == c;
      assert ab[|a| + k] == c;
      assert ab[|a| + rb] == c;
    } else {
      if ra >= 0 {
        assert ab[ra] == c;
      }
      assert forall j :: |a| <= j < |ab| ==> ab[j] == b[j - |a|];
    }
  }

  /** The last dot of a stem followed by a plain suffix is the suffix's own dot. */
  lemma PlainSuffixLastDot(stem: string, s: string)
    requires PlainSuffix(s)
    ensures LastIndexOf(stem + s, '.') == |stem|
  {
    assert '.' !in s[1..];
    assert stem + s == (stem + ['.']) + s[1..];
    LastIndexOfAppend(stem + ['.'], s[1..], '.');
  }

  lemma NotInEnd(a: string, b: string, c: char)
    requires EndsWith(a, b) && c !in a
    ensures c !in b
  {
  }

  /** A non-empty name's stem (the name without its suffix) is not empty. */
  lemma StemNotEmpty(name: string)
    requires name != ""
    ensures |NameSuffix(name)| < |name|
  {
    if NameSuffix(name) != [] {
      assert 0 < LastIndexOf(name, '.');
    }
  }

  /** Cutting a path's suffix off leaves a path whose last component is the stem. */
  lemma BasenameOfFront(p: string)
    requires PathName(p) != ""
    ensures Basename(p[..|p| - |NameSuffix(PathName(p))|]) == NameStem(PathName(p))
  {
    var name := PathName(p);
    var suffix := NameSuffix(name);
    var front := p[..|p| - |suffix|];
    assert name == Basename(p);
    NotInEnd(name, suffix, '/');
    assert p == front + suffix;
    BasenameAppend(front, suffix);
  }

  /** The stem of a name followed by a plain suffix reads that suffix back. */
  lemma NameSuffixOfPlain(stem: string, s: string)
    requires stem != "" && PlainSuffix(s)
    ensures NameSuffix(stem + s) == s
  {
    PlainSuffixLastDot(stem, s);
    assert (stem + s)[|stem|..] == s;
  }

  /** The path with_suffix builds: the path without its old suffix, followed by the new one. */
  lemma WithSuffixValue(p: string, s: string)
    requires WithSuffix(p, s).Ok?
    ensures WithSuffix(p, s) == Ok(p[..|p| - |NameSuffix(PathName(p))|] + s)
  {
  }

  lemma PathNameOfPlain(front: string, s: string)
    requires PlainSuffix(s)
    ensures PathName(front + s) == Basename(front) + s
  {
    BasenameAppend(front, s);
  }

  /** The name of a path that was given a plain suffix is its old stem followed by the suffix, and reads that suffix back. */
  lemma WithSuffixName(p: string, s: string)
    requires PlainSuffix(s) && WithSuffix(p, s).Ok?
    ensures PathName(WithSuffix(p, s).value) == NameStem(PathName(p)) + s
    ensures NameSuffix(PathName(WithSuffix(p, s).value)) == s
  {
    var front := p[..|p| - |NameSuffix(PathName(p))|];
    WithSuffixValue(p, s);
    BasenameOfFront(p);
    PathNameOfPlain(front, s);
    StemNotEmpty(PathName(p));
    NameSuffixOfPlain(NameStem(PathName(p)), s);
  }

  /** Giving a path a plain suffix and then another suffix is the same as giving it the second suffix at once. */
  lemma WithSuffixTwice(p: string, s: string, t: string)
    requires PlainSuffix(s) && WithSuffix(p, s).Ok?
    ensures WithSuffix(WithSuffix(p, s).value, t) == WithSuffix(p, t)
  {
    WithSuffixName(p, s);
    var front := p[..|p| - |NameSuffix(PathName(p))|];
    var q := front + s;
    assert WithSuffix(p, s) == Ok(q);
    assert PathName(q) != "";
    assert q[..|q| - |s|] == front;
    assert WithSuffix(q, t) == Ok(front + t);
  }

  /** A path given a plain suffix ends with it, so the substring test for that suffix succeeds. */
  lemma WithSuffixEndsWith(p: string, s: string)
    requires WithSuffix(p, s).Ok?
    ensures EndsWith(WithSuffix(p, s).value, s)
    ensures Contains(WithSuffix(p, s).value, s)
  {
    var q := WithSuffix(p, s).value;
    assert q[|q| - |s|..] == s;
    EndsWithContains(q, s);
  }

  lemma EndsWithTrans(a: string, b: string, c: string)
    requires EndsWith(a, b) && EndsWith(b, c)
    ensures EndsWith(a, c)
  {
    assert a[|a| - |c|..] == a[|a| - |b|..][|b| - |c|..];
  }

  /** with_suffix("") drops exactly the name's suffix: putting it back gives the path again. */
  lemma StripSuffixRoundTrip(p: string)
    requires WithSuffix(p, "").Ok?
    ensures WithSuffix(p, "").value + NameSuffix(PathName(p)) == p
  {
    var name := PathName(p);
    var suffix := NameSuffix(name);
    WithSuffixValue(p, "");
    assert EndsWith(p, name);
    EndsWithTrans(p, name, suffix);
    var front := p[..|p| - |suffix|];
    assert front + "" == front;
    assert p[|p| - |suffix|..] == suffix;
    assert front + suffix == p;
  }
}
