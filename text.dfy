// The few JavaScript string operations the plugins rely on: the `\s`
// character class, `toLowerCase`, `trim`, the comma split `split(/\s*,\s*/)`,
// decimal `parseInt` and number-to-string conversion.
module Text {
  import opened Wrappers

  /** A character of JavaScript's `\s` class (also what `trim` removes). */
  predicate IsSpace(c: char) {
    c == ' ' || c == '\t' || c == '\n' || c == '\r' || c == '\U{000B}' || c == '\U{000C}'
    || c == '\U{00A0}' || c == '\U{1680}' || ('\U{2000}' <= c <= '\U{200A}')
    || c == '\U{2028}' || c == '\U{2029}' || c == '\U{202F}' || c == '\U{205F}'
    || c == '\U{3000}' || c == '\U{FEFF}'
  }

  /** A character that ends a line for the regular-expression `.`. */
  predicate IsLineTerminator(c: char) {
    c == '\n' || c == '\r' || c == '\U{2028}' || c == '\U{2029}'
  }

  /** No character of `s` ends a line. */
  predicate OneLine(s: string) {
    forall k :: 0 <= k < |s| ==> !IsLineTerminator(s[k])
  }

  predicate IsBlank(s: string) {
    forall i :: 0 <= i < |s| ==> IsSpace(s[i])
  }

  predicate IsDigit(c: char) {
    '0' <= c <= '9'
  }

  /** Lower-casing of one character (ASCII letters only). */
  function LowerChar(c: char): (r: char)
    ensures 'A' <= c <= 'Z' ==> 'a' <= r <= 'z' && r as int - c as int == 32
    ensures !('A' <= c <= 'Z') ==> r == c
  {
    if 'A' <= c <= 'Z' then (c as int + 32) as char else c
  }

  /** `String.prototype.toLowerCase`, character by character. */
  function Lower(s: string): (r: string)
    ensures |r| == |s|
    ensures forall i :: 0 <= i < |s| ==> r[i] == LowerChar(s[i])
  {
    seq(|s|, i requires 0 <= i < |s| => LowerChar(s[i]))
  }

  function LowerEach(ss: seq<string>): (r: seq<string>)
    ensures |r| == |ss|
    ensures forall i :: 0 <= i < |ss| ==> r[i] == Lower(ss[i])
  {
    seq(|ss|, i requires 0 <= i < |ss| => Lower(ss[i]))
  }

  /** Drops the leading `\s` characters. */
  function TrimStart(s: string): (r: string)
    ensures |r| <= |s| && r == s[|s| - |r|..]
    ensures IsBlank(s[..|s| - |r|])
    ensures r == [] || !IsSpace(r[0])
    decreases |s|
  {
    if s != [] && IsSpace(s[0]) then
      var r := TrimStart(s[1..]);
      assert s[..|s| - |r|] == [s[0]] + s[1..][..|s| - 1 - |r|];
      r
    else s
  }

  /** Drops the trailing `\s` characters. */
  function TrimEnd(s: string): (r: string)
    ensures |r| <= |s| && r == s[..|r|]
    ensures IsBlank(s[|r|..])
    ensures r == [] || !IsSpace(r[|r| - 1])
    decreases |s|
  {
    if s != [] && IsSpace(s[|s| - 1]) then
      var r := TrimEnd(s[..|s| - 1]);
      assert s[|r|..] == s[..|s| - 1][|r|..] + [s[|s| - 1]];
      r
    else s
  }

  /** `String.prototype.trim`: empty exactly when the input is blank. */
  function Trim(s: string): (r: string)
    ensures |r| == 0 <==> IsBlank(s)
  {
    var t := TrimStart(s);
    assert s == s[..|s| - |t|] + t;
    TrimEnd(t)
  }

  /** `ps[0] + sep + ps[1] + sep + ...`, the inverse of a split. */
  function JoinWith(ps: seq<string>, sep: string): string
    requires |ps| >= 1
  {
    if |ps| == 1 then ps[0] else ps[0] + sep + JoinWith(ps[1..], sep)
  }

  /** `s.split(",")`: the pieces between commas, at least one. */
  function SplitAtCommas(s: string): (r: seq<string>)
    ensures |r| >= 1
  {
    if s == [] then [""]
    else
      var rest := SplitAtCommas(s[1..]);
      if s[0] == ',' then [""] + rest else [[s[0]] + rest[0]] + rest[1..]
  }

  // Whitespace next to a comma belongs to the separator of `/\s*,\s*/`:
  // every piece but the first loses its leading `\s`, every piece but the
  // last its trailing `\s`.
  function TidyPiece(p: string, isFirst: bool, isLast: bool): string {
    var q := if isFirst then p else TrimStart(p);
    if isLast then q else TrimEnd(q)
  }

  // `s.split(/\s*,\s*/)`
  function SplitList(s: string): seq<string> {
    var ps := SplitAtCommas(s);
    seq(|ps|, k requires 0 <= k < |ps| => TidyPiece(ps[k], k == 0, k == |ps| - 1))
  }

  predicate CommaFree(s: string) {
    ',' !in s
  }

  /** Neither starts nor ends with a `\s` character. */
  predicate Tight(s: string) {
    s == [] || (!IsSpace(s[0]) && !IsSpace(s[|s| - 1]))
  }

  lemma {:induction false} SplitAtCommasPrefix(a: string, b: string)
    requires CommaFree(a)
    ensures SplitAtCommas(a + "," + b) == [a] + SplitAtCommas(b)
    decreases |a|
  {
    if a == [] {
      assert a + "," + b == [','] + b;
      assert ([','] + b)[1..] == b;
    } else {
      var s := a + "," + b;
      assert s[0] == a[0] && s[1..] == a[1..] + "," + b;
      assert a[0] in a;
      SplitAtCommasPrefix(a[1..], b);
      assert [a[0]] + a[1..] == a;
    }
  }

  /** Splitting at commas undoes joining comma-free pieces with ",". */
  lemma {:induction false} SplitAtCommasJoin(ps: seq<string>)
    requires |ps| >= 1
    requires forall i :: 0 <= i < |ps| ==> CommaFree(ps[i])
    ensures SplitAtCommas(JoinWith(ps, ",")) == ps
    decreases |ps|
  {
    if |ps| == 1 {
      SplitAtCommasNoComma(ps[0]);
    } else {
      SplitAtCommasPrefix(ps[0], JoinWith(ps[1..], ","));
      SplitAtCommasJoin(ps[1..]);
    }
  }

  lemma {:induction false} SplitAtCommasNoComma(s: string)
    requires CommaFree(s)
    ensures SplitAtCommas(s) == [s]
    decreases |s|
  {
    if s != [] {
      SplitAtCommasNoComma(s[1..]);
      assert [s[0]] + s[1..] == s;
    }
  }

  /** The pieces of a ", "-joined list: a blank precedes all but the first. */
  function Spaced(names: seq<string>): (r: seq<string>)
    ensures |r| == |names|
  {
    seq(|names|, k requires 0 <= k < |names| => if k == 0 then names[k] else " " + names[k])
  }

  lemma {:induction false} JoinSpaced(names: seq<string>)
    requires |names| >= 1
    ensures JoinWith(names, ", ") == JoinWith(Spaced(names), ",")
    decreases |names|
  {
    if |names| > 1 {
      JoinSpaced(names[1..]);
      var tail := Spaced(names[1..]);
      assert Spaced(names)[1..] == [" " + tail[0]] + tail[1..];
      if |names| == 2 {
        assert JoinWith(Spaced(names)[1..], ",") == " " + names[1];
      } else {
        assert JoinWith(Spaced(names)[1..], ",") == " " + JoinWith(tail, ",");
      }
    }
  }

  // `split(/\s*,\s*/)` recovers a list of comma-free names written out
  // with ", " between them, as long as no name has edge whitespace.
  lemma SplitListJoin(names: seq<string>)
    requires |names| >= 1
    requires forall i :: 0 <= i < |names| ==> CommaFree(names[i]) && Tight(names[i])
    ensures SplitList(JoinWith(names, ", ")) == names
  {
    JoinSpaced(names);
    SpacedCommaFree(names);
    SplitAtCommasJoin(Spaced(names));
    assert SplitAtCommas(JoinWith(names, ", ")) == Spaced(names);
    var r := SplitList(JoinWith(names, ", "));
    assert |r| == |names|;
    forall k | 0 <= k < |names| ensures r[k] == names[k] {
      TidySpaced(names, k);
    }
  }

  lemma SpacedCommaFree(names: seq<string>)
    requires forall i :: 0 <= i < |names| ==> CommaFree(names[i])
    ensures forall i :: 0 <= i < |names| ==> CommaFree(Spaced(names)[i])
  {
    forall i | 0 <= i < |names| ensures CommaFree(Spaced(names)[i]) {
      assert i > 0 ==> Spaced(names)[i] == " " + names[i];
    }
  }

  lemma TidySpaced(names: seq<string>, k: nat)
    requires k < |names| && Tight(names[k])
    ensures TidyPiece(Spaced(names)[k], k == 0, k == |names| - 1) == names[k]
  {
    var n := names[k];
    if k > 0 {
      assert (" " + n)[1..] == n;
      assert TrimStart(" " + n) == TrimStart(n);
    }
  }

  function DigitValue(c: char): nat
    requires IsDigit(c)
  {
    c as int - '0' as int
  }

  function DigitChar(d: nat): (c: char)
    requires d < 10
    ensures IsDigit(c) && DigitValue(c) == d
  {
    ('0' as int + d) as char
  }

  /** The value of a run of decimal digits. */
  function DigitsValue(ds: string): nat
    requires forall i :: 0 <= i < |ds| ==> IsDigit(ds[i])
  {
    if ds == [] then 0 else DigitsValue(ds[..|ds| - 1]) * 10 + DigitValue(ds[|ds| - 1])
  }

  /** The longest prefix made of decimal digits. */
  function DigitPrefix(s: string): (r: string)
    ensures |r| <= |s| && r == s[..|r|]
    ensures forall i :: 0 <= i < |r| ==> IsDigit(r[i])
    ensures |r| < |s| ==> !IsDigit(s[|r|])
  {
    if s != [] && IsDigit(s[0]) then [s[0]] + DigitPrefix(s[1..]) else []
  }

  /** `String(undefined)`. */
  const Undefined: string := "undefined"

  /** `String(params[key])`: a missing parameter reads as "undefined". */
  function Param(params: map<string, string>, key: string): string {
    if key in params then params[key] else Undefined
  }

  /** Decimal `parseInt`: leading `\s` skipped, an optional sign, then the
      longest run of digits; `None` (NaN) when there is no digit. */
  function ParseInt(s: string): Option<int> {
    var t := TrimStart(s);
    var negative := t != [] && t[0] == '-';
    var body := if t != [] && (t[0] == '-' || t[0] == '+') then t[1..] else t;
    var ds := DigitPrefix(body);
    if ds == [] then None
    else if negative then Some(-(DigitsValue(ds) as int))
    else Some(DigitsValue(ds) as int)
  }

  /** Decimal form of a natural number, as JavaScript writes `'' + n`. */
  function NatToString(n: nat): (r: string)
    ensures |r| >= 1
    ensures forall i :: 0 <= i < |r| ==> IsDigit(r[i])
  {
    if n < 10 then [DigitChar(n)] else NatToString(n / 10) + [DigitChar(n % 10)]
  }

  lemma {:induction false} DigitsOfNat(n: nat)
    ensures DigitsValue(NatToString(n)) == n
  {
    if n >= 10 {
      var s := NatToString(n);
      assert s[..|s| - 1] == NatToString(n / 10);
      DigitsOfNat(n / 10);
    }
  }

  lemma {:induction false} DigitPrefixAll(s: string)
    requires forall i :: 0 <= i < |s| ==> IsDigit(s[i])
    ensures DigitPrefix(s) == s
    decreases |s|
  {
    if s != [] {
      DigitPrefixAll(s[1..]);
    }
  }

  /** `parseInt` of a nonempty run of digits is the run's value. */
  lemma ParseDigits(s: string)
    requires |s| >= 1 && forall i :: 0 <= i < |s| ==> IsDigit(s[i])
    ensures ParseInt(s) == Some(DigitsValue(s) as int)
  {
    assert !IsSpace(s[0]) && s[0] != '-' && s[0] != '+';
    assert TrimStart(s) == s;
    DigitPrefixAll(s);
    ParseUnsigned(s, s);
  }

  /** `parseInt` of text with no leading blank or sign reads its digit prefix. */
  lemma ParseUnsigned(s: string, ds: string)
    requires TrimStart(s) == s && s != [] && s[0] != '-' && s[0] != '+'
    requires DigitPrefix(s) == ds && ds != []
    ensures ParseInt(s) == Some(DigitsValue(ds) as int)
  {
  }

  /** `parseInt` reads back what `NatToString` writes. */
  lemma ParseNatToString(n: nat)
    ensures ParseInt(NatToString(n)) == Some(n)
  {
    ParseDigits(NatToString(n));
    DigitsOfNat(n);
  }

  /** `pat` occurs in `s` at index `j`. */
  predicate At(s: string, pat: string, j: nat) {
    j + |pat| <= |s| && forall k :: 0 <= k < |pat| ==> s[j + k] == pat[k]
  }

  predicate Contains(s: string, pat: string) {
    exists j: nat | j <= |s| :: At(s, pat, j)
  }

  /** The index `indexOf` finds: the first at or after `i` where `pat`
      occurs. */
  function IndexOf(s: string, pat: string, i: nat): (r: Option<nat>)
    ensures r.Some? ==> i <= r.value && r.value + |pat| <= |s|
    decreases |s| - i
  {
    if i + |pat| > |s| then None
    else if s[i..i + |pat|] == pat then Some(i)
    else IndexOf(s, pat, i + 1)
  }

  /** `IndexOf` finds an occurrence, and none is earlier; when it finds
      none, there is none. */
  lemma {:induction false} IndexOfFirst(s: string, pat: string, i: nat)
    ensures IndexOf(s, pat, i).Some? ==> At(s, pat, IndexOf(s, pat, i).value)
    ensures IndexOf(s, pat, i).Some? ==> forall j: nat :: i <= j < IndexOf(s, pat, i).value ==> !At(s, pat, j)
    ensures IndexOf(s, pat, i).None? ==> forall j: nat :: i <= j ==> !At(s, pat, j)
    decreases |s| - i
  {
    if i + |pat| <= |s| && s[i..i + |pat|] != pat {
      IndexOfFirst(s, pat, i + 1);
    }
  }

  /** The placeholder for a state's name in popup text. */
  const Placeholder: string := "%1"

  // The replacement string of `replace` with its `$` patterns expanded, for
  // a match of the placeholder with text `pre` before it and `post` after
  // it: `$$` is a dollar sign, `$&` the matched text, `$`` the text before,
  // `$'` the text after; any other `$` stands for itself (the pattern has no
  // capture groups).
  function Expand(rep: string, pre: string, post: string): string
    decreases |rep|
  {
    if |rep| >= 2 && rep[0] == '$' && rep[1] == '$' then "$" + Expand(rep[2..], pre, post)
    else if |rep| >= 2 && rep[0] == '$' && rep[1] == '&' then Placeholder + Expand(rep[2..], pre, post)
    else if |rep| >= 2 && rep[0] == '$' && rep[1] == '`' then pre + Expand(rep[2..], pre, post)
    else if |rep| >= 2 && rep[0] == '$' && rep[1] == '\'' then post + Expand(rep[2..], pre, post)
    else if rep == [] then []
    else [rep[0]] + Expand(rep[1..], pre, post)
  }

  /** A replacement without `$` is inserted as it is. */
  lemma {:induction false} ExpandPlain(rep: string, pre: string, post: string)
    requires '$' !in rep
    ensures Expand(rep, pre, post) == rep
    decreases |rep|
  {
    if rep != [] {
      assert rep[0] in rep;
      ExpandPlain(rep[1..], pre, post);
      assert [rep[0]] + rep[1..] == rep;
    }
  }

  // `s.replace(/%1/, name)`: the first placeholder, and only that one, is
  // replaced.
  function ReplaceFirst(s: string, name: string): string {
    match IndexOf(s, Placeholder, 0)
    case None => s
    case Some(k) => s[..k] + Expand(name, s[..k], s[k + 2..]) + s[k + 2..]
  }

  /** Text without the placeholder is left as it is. */
  lemma ReplaceFirstNone(s: string, name: string)
    requires !Contains(s, Placeholder)
    ensures ReplaceFirst(s, name) == s
  {
    IndexOfFirst(s, Placeholder, 0);
    if IndexOf(s, Placeholder, 0).Some? {
      assert Contains(s, Placeholder);
    }
  }

  /** The first placeholder is replaced by the name; later ones stay. */
  lemma ReplaceFirstSplit(a: string, b: string, name: string)
    requires !Contains(a, Placeholder) && '$' !in name
    ensures ReplaceFirst(a + Placeholder + b, name) == a + name + b
  {
    var s := a + Placeholder + b;
    assert At(s, Placeholder, |a|) by {
      assert s[|a|] == '%' && s[|a| + 1] == '1';
    }
    forall j: nat | j < |a|
      ensures !At(s, Placeholder, j)
    {
      if j + 1 < |a| {
        assert !At(a, Placeholder, j);
        assert s[j] == a[j] && s[j + 1] == a[j + 1];
      } else {
        assert s[j + 1] == '%' != Placeholder[1];
      }
    }
    IndexOfFirst(s, Placeholder, 0);
    assert IndexOf(s, Placeholder, 0) == Some(|a|);
    ExpandPlain(name, a, b);
    assert s[..|a|] == a && s[|a| + 2..] == b;
  }
}
