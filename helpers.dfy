/** utils/helpers/index.ts: the string helpers `cn`, `truncate` and `capitalize`
    (its `isValidEmail` is the shared check of module Email). */
module Helpers {
  import opened Common
  import opened Strings

  /** One argument of `cn`: a class name, a boolean (as produced by `cond && 'x'`), or
      undefined/null. */
  datatype ClassArg = ClassName(name: string) | Flag(b: bool) | Missing

  /** `Boolean(arg)`. */
  predicate Kept(a: ClassArg) {
    match a
    case ClassName(s) => s != ""
    case Flag(b) => b
    case Missing => false
  }

  /** How `join` writes a kept argument; `true` is written "true". */
  function Text(a: ClassArg): string {
    match a
    case ClassName(s) => s
    case Flag(_) => "true"
    case Missing => ""
  }

  /** cn: `classes.filter(Boolean).join(' ')`. */
  function Cn(classes: seq<ClassArg>): (r: string)
    ensures Filter(classes, Kept) == [] ==> r == ""
  {
    Join(MapSeq(Filter(classes, Kept), Text), " ")
  }

  lemma {:induction false} JoinAppend(a: seq<string>, b: seq<string>, sep: string)
    requires a != [] && b != []
    ensures Join(a + b, sep) == Join(a, sep) + sep + Join(b, sep)
    decreases |b|
  {
    if |b| == 1 {
      assert (a + b)[..|a + b| - 1] == a;
    } else {
      var b' := b[..|b| - 1];
      assert (a + b)[..|a + b| - 1] == a + b';
      JoinAppend(a, b', sep);
    }
  }

  lemma CnAppendParts(a: seq<ClassArg>, b: seq<ClassArg>)
    ensures MapSeq(Filter(a + b, Kept), Text) == MapSeq(Filter(a, Kept), Text) + MapSeq(Filter(b, Kept), Text)
  {
    FilterAppend(a, b, Kept);
  }

  /** The arguments of `cn` combine: two groups that each keep something are joined
      by one space, and a group that keeps nothing adds nothing. */
  lemma CnConcat(a: seq<ClassArg>, b: seq<ClassArg>)
    ensures Cn(a) != "" && Cn(b) != "" ==> Cn(a + b) == Cn(a) + " " + Cn(b)
    ensures Filter(b, Kept) == [] ==> Cn(a + b) == Cn(a)
    ensures Filter(a, Kept) == [] ==> Cn(a + b) == Cn(b)
  {
    CnAppendParts(a, b);
    var fa, fb := MapSeq(Filter(a, Kept), Text), MapSeq(Filter(b, Kept), Text);
    assert fa + [] == fa && [] + fb == fb;
    if Cn(a) != "" && Cn(b) != "" {
      JoinAppend(fa, fb, " ");
    }
  }

  /** A single class is kept as it is. */
  lemma CnSingle(c: string)
    requires c != ""
    ensures Cn([ClassName(c)]) == c
  {
    assert Filter([ClassName(c)], Kept) == [ClassName(c)] by {
      assert [ClassName(c)][..0] == [];
    }
  }

  /** undefined, null, false and '' are dropped. */
  lemma CnDropsFalsy(rest: seq<ClassArg>)
    ensures Cn([Missing, Flag(false), ClassName("")] + rest) == Cn(rest)
  {
    var a := [Missing, Flag(false), ClassName("")];
    assert Filter(a, Kept) == [] by {
      assert a[..2] == [Missing, Flag(false)];
      assert a[..1] == [Missing];
    }
    CnConcat(a, rest);
  }

  /** `true` is kept and written out. */
  lemma CnWritesTrue(c: string)
    requires c != ""
    ensures Cn([ClassName(c), Flag(true)]) == c + " true"
  {
    CnSingle(c);
    assert Cn([Flag(true)]) == "true" by {
      assert Filter([Flag(true)], Kept) == [Flag(true)] by {
        assert [Flag(true)][..0] == [];
      }
    }
    CnConcat([ClassName(c)], [Flag(true)]);
    assert [ClassName(c)] + [Flag(true)] == [ClassName(c), Flag(true)];
  }

  /** `text.substring(0, n)`: a negative end counts as 0. */
  function Prefix(text: string, n: int): (r: string)
    ensures r <= text && |r| == if n <= 0 then 0 else if n < |text| then n else |text|
  {
    if n <= 0 then "" else if n < |text| then text[..n] else text
  }

  /** truncate; `length` is the optional argument, 100 by default. */
  function Truncate(text: string, length: Option<int>): (r: string)
    ensures |text| <= length.GetOr(100) ==> r == text
    ensures |text| > length.GetOr(100) ==>
              var n := length.GetOr(100);
              |r| >= 3 && r[|r| - 3..] == "..." && r[..|r| - 3] <= text
              && |r| <= (if n < 0 then 0 else n) + 3
              && r[..|r| - 3] == TrimEnd(Prefix(text, n))
  {
    var n := length.GetOr(100);
    if |text| <= n then text
    else
      var t := TrimEnd(Prefix(text, n));
      assert (t + "...")[..|t|] == t;
      t + "..."
  }

  /** Only text that is longer than the limit is cut, and what is kept of it is the
      text's prefix up to the limit, less trailing whitespace. */
  lemma TruncateKeepsPrefix(text: string, n: nat)
    requires n < |text|
    ensures Truncate(text, Some(n)) == TrimEnd(text[..n]) + "..."
    ensures forall i :: |TrimEnd(text[..n])| <= i < n ==> IsJsWhitespace(text[i])
  {
  }

  /** ASCII `toUpperCase` / `toLowerCase` of one character. */
  function UpperChar(c: char): (r: char)
    ensures !('a' <= r <= 'z')
  {
    if 'a' <= c <= 'z' then (c as int - 32) as char else c
  }

  function LowerChar(c: char): (r: char)
    ensures !('A' <= r <= 'Z')
  {
    if 'A' <= c <= 'Z' then (c as int + 32) as char else c
  }

  function Lower(s: string): (r: string)
    ensures |r| == |s| && forall i :: 0 <= i < |s| ==> r[i] == LowerChar(s[i])
  {
    seq(|s|, i requires 0 <= i < |s| => LowerChar(s[i]))
  }

  /** capitalize: `str.charAt(0).toUpperCase() + str.slice(1).toLowerCase()`. */
  function Capitalize(s: string): (r: string)
    ensures |r| == |s|
    ensures s != [] ==> r[0] == UpperChar(s[0]) && forall i :: 1 <= i < |s| ==> r[i] == LowerChar(s[i])
  {
    if s == [] then "" else [UpperChar(s[0])] + Lower(s[1..])
  }

  /** Capitalizing twice is capitalizing once, and the empty string stays empty. */
  lemma CapitalizeIdempotent(s: string)
    ensures Capitalize(Capitalize(s)) == Capitalize(s)
    ensures Capitalize("") == ""
  {
    var r := Capitalize(s);
    if s != [] {
      assert Capitalize(r) == r;
    }
  }

  /** A capitalized string starts with no lower-case and continues with no upper-case
      ASCII letter. */
  lemma CapitalizeShape(s: string)
    ensures var r := Capitalize(s);
            (r != [] ==> !('a' <= r[0] <= 'z')) && forall i :: 1 <= i < |r| ==> !('A' <= r[i] <= 'Z')
  {
  }
}
