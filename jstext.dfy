/** The JavaScript string built-ins the profile code relies on: `\s` and
    `trim`, `toLowerCase`, `includes`, `startsWith`, `split` on one
    character, `join`, `replace(/\s+/g, '_')` and the rendering of an
    integer inside a template literal. */
module JsText {
  import opened Seqs

  /** A JavaScript evaluation: it returns a value or throws a `TypeError`
      (a property read or method call on `undefined` or `null`). */
  datatype Eval<T> = Returns(value: T) | Throws

  /** String truthiness: only the empty string is falsy, which is what
      `filter(Boolean)` and `filter(s => s)` test. */
  predicate NonEmpty(s: string) {
    s != ""
  }

  /** The characters `\s` matches and `trim` removes: ECMAScript's
      WhiteSpace (tab, vertical tab, form feed, space, no-break space,
      byte order mark and the other Zs characters) and LineTerminator. */
  predicate IsSpace(c: char) {
    || c == '\t' || c == '\n' || c == '\U{000B}' || c == '\U{000C}' || c == '\r'
    || c == ' ' || c == '\U{00A0}' || c == '\U{1680}'
    || ('\U{2000}' <= c <= '\U{200A}')
    || c == '\U{2028}' || c == '\U{2029}' || c == '\U{202F}' || c == '\U{205F}'
    || c == '\U{3000}' || c == '\U{FEFF}'
  }

  predicate HasNoSpace(s: string) {
    forall i :: 0 <= i < |s| ==> !IsSpace(s[i])
  }

  /** `s.trimStart()`: the suffix left after dropping leading whitespace. */
  function TrimStart(s: string): (r: string)
    ensures |r| <= |s| && r == s[|s| - |r|..]
    ensures r == [] || !IsSpace(r[0])
    ensures forall i :: 0 <= i < |s| - |r| ==> IsSpace(s[i])
  {
    if s != [] && IsSpace(s[0]) then
      var r := TrimStart(s[1..]);
      assert forall i :: 1 <= i < |s| - |r| ==> s[i] == s[1..][i - 1];
      r
    else s
  }

  /** `s.trimEnd()`: the prefix left after dropping trailing whitespace. */
  function TrimEnd(s: string): (r: string)
    ensures |r| <= |s| && r == s[..|r|]
    ensures r == [] || !IsSpace(r[|r| - 1])
    ensures forall i :: |r| <= i < |s| ==> IsSpace(s[i])
  {
    if s != [] && IsSpace(s[|s| - 1]) then TrimEnd(s[..|s| - 1]) else s
  }

  /** `s.trim()`. */
  function Trim(s: string): string {
    TrimEnd(TrimStart(s))
  }

  /** A string equals its own trim exactly when it is empty or starts and
      ends with a non-space character. */
  lemma TrimFixpoint(s: string)
    ensures Trim(s) == s <==> s == [] || (!IsSpace(s[0]) && !IsSpace(s[|s| - 1]))
  {
    if s != [] && !IsSpace(s[0]) && !IsSpace(s[|s| - 1]) {
      assert TrimStart(s) == s;
    }
  }

  /** Trimming a trimmed, non-empty string with whitespace in front of it
      gives the string back; this is what lets `", "`-joined lists be read
      back. */
  lemma TrimAfterSpace(w: string, x: string)
    requires forall i :: 0 <= i < |w| ==> IsSpace(w[i])
    requires x != [] && Trim(x) == x
    ensures Trim(w + x) == x
  {
    TrimFixpoint(x);
    TrimStartSkips(w, x);
  }

  /** `trimStart` drops exactly a leading whitespace run. */
  lemma {:induction false} TrimStartSkips(w: string, s: string)
    requires forall i :: 0 <= i < |w| ==> IsSpace(w[i])
    requires s == [] || !IsSpace(s[0])
    ensures TrimStart(w + s) == s
  {
    if w == [] {
      assert w + s == s;
    } else {
      assert (w + s)[1..] == w[1..] + s;
      TrimStartSkips(w[1..], s);
    }
  }

  /** `s.toLowerCase()`, for the ASCII letters. */
  function LowerChar(c: char): char {
    if 'A' <= c <= 'Z' then (c as int + 32) as char else c
  }

  /** `s.toLowerCase()`: each upper-case letter becomes its lower-case
      partner, every other character stays, and no upper-case letter is
      left. */
  function Lower(s: string): (r: string)
    ensures |r| == |s|
    ensures forall i :: 0 <= i < |s| && 'A' <= s[i] <= 'Z' ==> 'a' <= r[i] <= 'z' && r[i] as int == s[i] as int + 32
    ensures forall i :: 0 <= i < |s| && !('A' <= s[i] <= 'Z') ==> r[i] == s[i]
    ensures forall i :: 0 <= i < |r| ==> !('A' <= r[i] <= 'Z')
  {
    seq(|s|, i requires 0 <= i < |s| => LowerChar(s[i]))
  }

  /** Lower-casing twice is lower-casing once. */
  lemma LowerIdempotent(s: string)
    ensures Lower(Lower(s)) == Lower(s)
  {
    var once := Lower(s);
    forall i | 0 <= i < |s|
      ensures Lower(once)[i] == once[i]
    {
      assert !('A' <= once[i] <= 'Z');
    }
  }

  /** `s.includes(t)`. */
  predicate Includes(s: string, t: string) {
    exists i :: 0 <= i <= |s| - |t| && t <= s[i..]
  }

  lemma IncludesEmpty(s: string)
    ensures Includes(s, "")
  {
    assert "" <= s[0..];
  }

  /** `s.startsWith(t)`. */
  predicate StartsWith(s: string, t: string) {
    t <= s
  }

  /** `s.endsWith(t)`. */
  predicate EndsWith(s: string, t: string) {
    |t| <= |s| && s[|s| - |t|..] == t
  }

  /** `s.split(c)` for a one-character separator: the maximal runs of
      characters between separators, so `"".split(c)` is `[""]`. */
  function Split(s: string, c: char): (r: seq<string>)
    ensures |r| >= 1
  {
    if s == [] then [[]]
    else
      var t := Split(s[1..], c);
      if s[0] == c then [[]] + t else [[s[0]] + t[0]] + t[1..]
  }

  /** `xs.join(sep)`; the empty list joins to the empty string. */
  function Join(xs: seq<string>, sep: string): string {
    if |xs| == 0 then ""
    else if |xs| == 1 then xs[0]
    else xs[0] + sep + Join(xs[1..], sep)
  }

  predicate Excludes(s: string, c: char) {
    forall i :: 0 <= i < |s| ==> s[i] != c
  }

  lemma {:induction false} SplitWithout(s: string, c: char)
    requires Excludes(s, c)
    ensures Split(s, c) == [s]
  {
    if s != [] {
      SplitWithout(s[1..], c);
      assert [s[0]] + s[1..] == s;
    }
  }

  /** Splitting at a separator placed after a separator-free piece gives the
      piece, followed by the split of the rest. */
  lemma {:induction false} SplitAfter(a: string, c: char, b: string)
    requires Excludes(a, c)
    ensures Split(a + [c] + b, c) == [a] + Split(b, c)
  {
    if a == [] {
      assert (a + [c] + b)[1..] == b;
    } else {
      assert (a + [c] + b)[1..] == a[1..] + [c] + b;
      SplitAfter(a[1..], c, b);
      assert [a[0]] + a[1..] == a;
    }
  }

  /** `split` undoes `join` on the same one-character separator when no
      piece contains it. */
  lemma {:induction false} SplitJoin(xs: seq<string>, c: char)
    requires |xs| >= 1
    requires forall i :: 0 <= i < |xs| ==> Excludes(xs[i], c)
    ensures Split(Join(xs, [c]), c) == xs
  {
    if |xs| == 1 {
      SplitWithout(xs[0], c);
    } else {
      SplitJoin(xs[1..], c);
      SplitAfter(xs[0], c, Join(xs[1..], [c]));
      assert [xs[0]] + xs[1..] == xs;
    }
  }

  /** Joining on a separator `[c] + pad` is joining, on `[c]` alone, the
      list whose later items carry `pad` in front. */
  function Padded(pad: string, xs: seq<string>): (r: seq<string>)
    ensures |r| == |xs|
    ensures forall i :: 0 <= i < |xs| ==> r[i] == pad + xs[i]
  {
    seq(|xs|, i requires 0 <= i < |xs| => pad + xs[i])
  }

  lemma {:induction false} JoinPadded(xs: seq<string>, c: char, pad: string)
    requires |xs| >= 1
    ensures Join(xs, [c] + pad) == Join([xs[0]] + Padded(pad, xs[1..]), [c])
  {
    if |xs| > 1 {
      JoinPadded(xs[1..], c, pad);
      var ys := [xs[0]] + Padded(pad, xs[1..]);
      var zs := [xs[1]] + Padded(pad, xs[2..]);
      assert ys[1..] == Padded(pad, xs[1..]);
      assert Join([pad + xs[1]] + zs[1..], [c]) == pad + Join(zs, [c]) by {
        JoinFirst(zs, pad, [c]);
      }
      assert [pad + xs[1]] + zs[1..] == ys[1..];
    }
  }

  /** Prefixing the first piece prefixes the joined text. */
  lemma JoinFirst(xs: seq<string>, pre: string, sep: string)
    requires |xs| >= 1
    ensures Join([pre + xs[0]] + xs[1..], sep) == pre + Join(xs, sep)
  {
    var ys := [pre + xs[0]] + xs[1..];
    assert ys[1..] == xs[1..];
  }

  /** Joining two non-empty lists is joining each and putting the
      separator between. */
  lemma {:induction false} JoinConcat(a: seq<string>, b: seq<string>, sep: string)
    requires |a| >= 1 && |b| >= 1
    ensures Join(a + b, sep) == Join(a, sep) + sep + Join(b, sep)
  {
    if |a| > 1 {
      JoinConcat(a[1..], b, sep);
      assert (a + b)[1..] == a[1..] + b;
    } else {
      assert (a + b)[1..] == b;
    }
  }

  /** `s.replace(/\s+/g, '_')`: every maximal run of whitespace becomes one
      underscore; other characters are kept in order. */
  function ReplaceSpaceRuns(s: string): (r: string)
    ensures |r| <= |s|
    ensures HasNoSpace(r)
    ensures HasNoSpace(s) ==> r == s
    decreases |s|
  {
    if s == [] then []
    else if IsSpace(s[0]) then "_" + ReplaceSpaceRuns(TrimStart(s))
    else [s[0]] + ReplaceSpaceRuns(s[1..])
  }

  /** A run of whitespace in front of a non-space character (or the end)
      collapses to a single underscore. */
  lemma SpaceRunCollapses(w: string, s: string)
    requires w != [] && forall i :: 0 <= i < |w| ==> IsSpace(w[i])
    requires s == [] || !IsSpace(s[0])
    ensures ReplaceSpaceRuns(w + s) == "_" + ReplaceSpaceRuns(s)
  {
    assert (w + s)[0] == w[0];
    TrimStartSkips(w, s);
  }

  /** Replacing whitespace runs is idempotent. */
  lemma ReplaceSpaceRunsIdempotent(s: string)
    ensures ReplaceSpaceRuns(ReplaceSpaceRuns(s)) == ReplaceSpaceRuns(s)
  {
  }

  /** The decimal text of a non-negative integer. */
  function NatToString(n: nat): (r: string)
    ensures |r| >= 1
    ensures forall i :: 0 <= i < |r| ==> '0' <= r[i] <= '9'
  {
    var d := ['0' + (n % 10) as char];
    if n < 10 then d else NatToString(n / 10) + d
  }

  /** A number rendered inside a template literal, for integers. */
  function NumberToString(n: int): string {
    if n < 0 then "-" + NatToString(-n) else NatToString(n)
  }

  /** The value of a string of decimal digits. */
  function DecimalValue(s: string): nat
    requires forall i :: 0 <= i < |s| ==> '0' <= s[i] <= '9'
  {
    if s == [] then 0 else 10 * DecimalValue(s[..|s| - 1]) + (s[|s| - 1] - '0') as nat
  }

  /** Reading back the rendered digits gives the number. */
  lemma {:induction false} NatToStringRoundTrip(n: nat)
    ensures DecimalValue(NatToString(n)) == n
  {
    var r := NatToString(n);
    if n >= 10 {
      NatToStringRoundTrip(n / 10);
      assert r[..|r| - 1] == NatToString(n / 10);
    }
  }
}
