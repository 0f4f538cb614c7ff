/** The State Popups note tags: the ten `<Popup ...: value>` tags a state's
    note may carry, the matcher that reads each, and the loader that gives
    every state its popup information. */
module PopupTags {
  import opened Wrappers
  import opened Text

  /** The ten fields a tag can set. */
  datatype Field = AddText | RemoveText | XPos | YPos | Color | Outline
                 | Duration | Animations | FlashColor | FlashDuration

  /** The words after `<Popup` in a field's tag, lower-cased. */
  function Words(f: Field): (r: seq<string>)
    ensures |r| >= 1 && WordList(r)
  {
    match f
    case AddText => ["add", "text"]
    case RemoveText => ["remove", "text"]
    case XPos => ["x"]
    case YPos => ["y"]
    case Color => ["color"]
    case Outline => ["outline"]
    case Duration => ["duration"]
    case Animations => ["animations"]
    case FlashColor => ["flash", "color"]
    case FlashDuration => ["flash", "duration"]
  }

  /** The first index at or after `i` that is not `\s`. */
  function SkipSpaces(s: string, i: nat): (r: nat)
    requires i <= |s|
    ensures i <= r <= |s|
    decreases |s| - i
  {
    if i < |s| && IsSpace(s[i]) then SkipSpaces(s, i + 1) else i
  }

  /** `SkipSpaces` stops at the first non-space. */
  lemma {:induction false} SkipSpacesStops(s: string, i: nat)
    requires i <= |s|
    ensures forall k :: i <= k < SkipSpaces(s, i) ==> IsSpace(s[k])
    ensures SkipSpaces(s, i) == |s| || !IsSpace(s[SkipSpaces(s, i)])
    decreases |s| - i
  {
    if i < |s| && IsSpace(s[i]) {
      SkipSpacesStops(s, i + 1);
    }
  }

  /** The lower-case word `w` at `i`, in any case; the index after it. */
  function MatchWord(s: string, i: nat, w: string): (r: Option<nat>)
    requires i <= |s|
    ensures r.Some? ==> r.value == i + |w| <= |s|
    decreases |w|
  {
    if w == [] then Some(i)
    else if i < |s| && LowerChar(s[i]) == w[0] then MatchWord(s, i + 1, w[1..])
    else None
  }

  /** A word written in any case is matched. */
  lemma {:induction false} MatchWordCased(s: string, i: nat, w: string, lw: string)
    requires At(s, w, i) && Lower(w) == lw
    ensures MatchWord(s, i, lw) == Some(i + |w|)
    decreases |w|
  {
    if w != [] {
      assert s[i] == w[0] && LowerChar(w[0]) == lw[0];
      assert At(s, w[1..], i + 1) by {
        assert forall k :: 0 <= k < |w| - 1 ==> w[1..][k] == w[k + 1];
      }
      assert Lower(w[1..]) == lw[1..];
      MatchWordCased(s, i + 1, w[1..], lw[1..]);
    }
  }

  /** `\s*w1\s*w2...` at `i`; the index after the last word. */
  function MatchWords(s: string, i: nat, ws: seq<string>): (r: Option<nat>)
    requires i <= |s|
    ensures r.Some? ==> i <= r.value <= |s|
    decreases |ws|
  {
    if ws == [] then Some(i)
    else
      match MatchWord(s, SkipSpaces(s, i), ws[0])
      case None => None
      case Some(j) => MatchWords(s, j, ws[1..])
  }

  /** The end of the line holding index `i`. */
  function LineEnd(s: string, i: nat): (r: nat)
    requires i <= |s|
    ensures i <= r <= |s|
    decreases |s| - i
  {
    if i < |s| && !IsLineTerminator(s[i]) then LineEnd(s, i + 1) else i
  }

  /** `LineEnd` stops at the first line terminator. */
  lemma {:induction false} LineEndStops(s: string, i: nat)
    requires i <= |s|
    ensures forall k :: i <= k < LineEnd(s, i) ==> !IsLineTerminator(s[k])
    ensures LineEnd(s, i) == |s| || IsLineTerminator(s[LineEnd(s, i)])
    decreases |s| - i
  {
    if i < |s| && !IsLineTerminator(s[i]) {
      LineEndStops(s, i + 1);
    }
  }

  /** The last `>` in `s[i..e]`. */
  function LastClose(s: string, i: nat, e: nat): (r: Option<nat>)
    requires i <= e <= |s|
    ensures r.Some? ==> i <= r.value < e && s[r.value] == '>'
    decreases e - i
  {
    if e == i then None else if s[e - 1] == '>' then Some(e - 1) else LastClose(s, i, e - 1)
  }

  /** From `e` on, only `\s` comes before a `>`: the pattern's `\s*>` can
      match there, running over line ends. */
  predicate CloseAfterBlank(s: string, e: nat)
    requires e <= |s|
    decreases |s| - e
  {
    e < |s| && (s[e] == '>' || (IsSpace(s[e]) && CloseAfterBlank(s, e + 1)))
  }

  // Where the value of `f`'s tag starts if the tag opens at `i`: `<`, the
  // word "popup", the field's words with optional `\s` before each, optional
  // `\s`, `:`, and then the `\s` the greedy `\s*` takes.
  function ValueStart(s: string, i: nat, head: string, words: seq<string>): (r: Option<nat>)
    requires i <= |s|
    ensures r.Some? ==> i < r.value <= |s|
  {
    if i < |s| && s[i] == '<' then
      match MatchWord(s, i + 1, head)
      case None => None
      case Some(j) =>
        match MatchWords(s, j, words)
        case None => None
        case Some(k) =>
          var c := SkipSpaces(s, k);
          if c < |s| && s[c] == ':' then Some(SkipSpaces(s, c + 1)) else None
    else None
  }

  // The match of `f`'s pattern `<Popup\s*Word\s*...:\s*(.*)\s*>` that starts
  // at `i`, as the text it captures.  The greedy `(.*)` takes the whole rest
  // of the value's line when `\s*>` can follow it, possibly on a later line;
  // otherwise it gives back up to the last `>` of that line.
  function MatchAt(s: string, i: nat, head: string, words: seq<string>): Option<string>
    requires i <= |s|
  {
    match ValueStart(s, i, head, words)
    case None => None
    case Some(q) =>
      var e := LineEnd(s, q);
      if CloseAfterBlank(s, e) then Some(s[q..e])
      else
        match LastClose(s, q, e)
        case None => None
        case Some(k) => Some(s[q..k])
  }

  /** `LastClose` finds the last `>` before `e`, or reports there is none. */
  lemma {:induction false} LastCloseIsLast(s: string, i: nat, e: nat)
    requires i <= e <= |s|
    ensures LastClose(s, i, e).Some? ==> forall k :: LastClose(s, i, e).value < k < e ==> s[k] != '>'
    ensures LastClose(s, i, e).None? ==> forall k :: i <= k < e ==> s[k] != '>'
    decreases e - i
  {
    if e > i && s[e - 1] != '>' {
      LastCloseIsLast(s, i, e - 1);
    }
  }

  /** The value starts at a non-space, or at the end of the note. */
  lemma ValueStartShape(s: string, i: nat, head: string, words: seq<string>)
    requires i <= |s| && ValueStart(s, i, head, words).Some?
    ensures var q := ValueStart(s, i, head, words).value;
            q == |s| || !IsSpace(s[q])
  {
    var j := MatchWord(s, i + 1, head).value;
    var m := MatchWords(s, j, words).value;
    var colon := SkipSpaces(s, m);
    SkipSpacesStops(s, colon + 1);
  }

  /** The captured text lies on one line and does not start with `\s`. */
  lemma CaptureShape(s: string, i: nat, head: string, words: seq<string>)
    requires i <= |s| && MatchAt(s, i, head, words).Some?
    ensures var c := MatchAt(s, i, head, words).value;
            OneLine(c) && (c == [] || !IsSpace(c[0]))
  {
    var q := ValueStart(s, i, head, words).value;
    var e := LineEnd(s, q);
    var k := if CloseAfterBlank(s, e) then e else LastClose(s, q, e).value;
    var c := s[q..k];
    assert MatchAt(s, i, head, words) == Some(c);
    LineEndStops(s, q);
    ValueStartShape(s, i, head, words);
    assert forall j :: 0 <= j < |c| ==> c[j] == s[q + j];
  }

  /** The leftmost match at or after `i`. */
  function MatchFrom(s: string, i: nat, head: string, words: seq<string>): Option<string>
    requires i <= |s|
    decreases |s| - i
  {
    var m := MatchAt(s, i, head, words);
    if m.Some? || i == |s| then m else MatchFrom(s, i + 1, head, words)
  }

  /** The match found is the one that starts leftmost; there is none only
      when no position starts one. */
  lemma {:induction false} MatchFromLeftmost(s: string, i: nat, head: string, words: seq<string>)
    requires i <= |s|
    ensures MatchFrom(s, i, head, words).None? <==> forall j :: i <= j <= |s| ==> MatchAt(s, j, head, words).None?
    ensures MatchFrom(s, i, head, words).Some? ==>
              exists j :: i <= j <= |s| && MatchAt(s, j, head, words) == MatchFrom(s, i, head, words)
                          && forall k :: i <= k < j ==> MatchAt(s, k, head, words).None?
    decreases |s| - i
  {
    MatchFromNone(s, i, head, words);
    MatchFromFirst(s, i, head, words);
  }

  lemma {:induction false} MatchFromNone(s: string, i: nat, head: string, words: seq<string>)
    requires i <= |s|
    ensures MatchFrom(s, i, head, words).None? <==> forall j :: i <= j <= |s| ==> MatchAt(s, j, head, words).None?
    decreases |s| - i
  {
    if MatchAt(s, i, head, words).None? && i < |s| {
      MatchFromNone(s, i + 1, head, words);
      MatchFromNext(s, i, head, words);
    }
  }

  /** No match at `i`: the search goes on from `i + 1`. */
  lemma MatchFromNext(s: string, i: nat, head: string, words: seq<string>)
    requires i < |s| && MatchAt(s, i, head, words).None?
    ensures MatchFrom(s, i, head, words) == MatchFrom(s, i + 1, head, words)
  {
  }

  lemma {:induction false} MatchFromFirst(s: string, i: nat, head: string, words: seq<string>)
    requires i <= |s|
    ensures MatchFrom(s, i, head, words).Some? ==>
              exists j :: i <= j <= |s| && MatchAt(s, j, head, words) == MatchFrom(s, i, head, words)
                          && forall k :: i <= k < j ==> MatchAt(s, k, head, words).None?
  {
    var j := FirstAt(s, i, head, words);
    FirstAtMatch(s, i, head, words);
    FirstAtNone(s, i, head, words);
    assert MatchAt(s, j, head, words) == MatchFrom(s, i, head, words);
  }

  /** Where the search from `i` stops. */
  ghost function FirstAt(s: string, i: nat, head: string, words: seq<string>): (j: nat)
    requires i <= |s|
    ensures i <= j <= |s|
    decreases |s| - i
  {
    if MatchAt(s, i, head, words).Some? || i == |s| then i else FirstAt(s, i + 1, head, words)
  }

  lemma {:induction false} FirstAtMatch(s: string, i: nat, head: string, words: seq<string>)
    requires i <= |s|
    ensures MatchAt(s, FirstAt(s, i, head, words), head, words) == MatchFrom(s, i, head, words)
    decreases |s| - i
  {
    var m := MatchAt(s, i, head, words);
    if m.Some? || i == |s| {
      assert FirstAt(s, i, head, words) == i && MatchFrom(s, i, head, words) == m;
    } else {
      assert FirstAt(s, i, head, words) == FirstAt(s, i + 1, head, words);
      FirstAtMatch(s, i + 1, head, words);
      MatchFromNext(s, i, head, words);
    }
  }

  lemma {:induction false} FirstAtNone(s: string, i: nat, head: string, words: seq<string>)
    requires i <= |s|
    ensures forall k :: i <= k < FirstAt(s, i, head, words) ==> MatchAt(s, k, head, words).None?
    decreases |s| - i
  {
    if MatchAt(s, i, head, words).None? && i < |s| {
      FirstAtNone(s, i + 1, head, words);
    }
  }

  /** `note.match(pattern)` for field `f`, as the captured text. */
  function FindTag(note: string, f: Field): Option<string> {
    MatchFrom(note, 0, "popup", Words(f))
  }

  /** A tag as written: `<`, `popup` in any case, the field's words each
      after the blank `g1`, then the blank `g2`, `:`, the blank `g3`, the
      value and `>`.  The documented `<Popup Add Text: value>` has `g1` a
      space, `g2` empty and `g3` a space. */
  function Tag(popup: string, ws: seq<string>, g1: string, g2: string, g3: string, v: string): string {
    "<" + popup + Spell(ws, g1) + g2 + ":" + g3 + v + ">"
  }

  function Spell(ws: seq<string>, gap: string): string {
    if ws == [] then "" else gap + ws[0] + Spell(ws[1..], gap)
  }

  /** Non-empty words, each starting with a lower-case letter. */
  predicate WordList(words: seq<string>) {
    forall k :: 0 <= k < |words| ==> |words[k]| >= 1 && 'a' <= words[k][0] <= 'z'
  }

  /** `ws` spells the words `lower` in some mix of cases. */
  predicate SpellsWords(ws: seq<string>, lower: seq<string>) {
    |ws| == |lower| && forall k :: 0 <= k < |ws| ==> Lower(ws[k]) == lower[k]
  }

  lemma AtSplit(s: string, p: nat, x: string, y: string)
    requires At(s, x + y, p)
    ensures At(s, x, p) && At(s, y, p + |x|)
  {
    assert forall k :: 0 <= k < |x| ==> (x + y)[k] == x[k];
    assert forall k :: 0 <= k < |y| ==> (x + y)[|x| + k] == y[k];
  }

  lemma AtSlice(s: string, p: nat, x: string)
    requires At(s, x, p)
    ensures s[p..p + |x|] == x
  {
  }

  /** Skipping `\s` from the start of a blank run stops right after it when
      a non-space follows. */
  lemma {:induction false} SkipGap(s: string, i: nat, gap: string)
    requires At(s, gap, i) && IsBlank(gap)
    requires i + |gap| == |s| || !IsSpace(s[i + |gap|])
    ensures SkipSpaces(s, i) == i + |gap|
    decreases |gap|
  {
    if gap != [] {
      assert s[i] == gap[0];
      assert At(s, gap[1..], i + 1) by {
        assert forall k :: 0 <= k < |gap| - 1 ==> gap[1..][k] == gap[k + 1];
      }
      SkipGap(s, i + 1, gap[1..]);
    }
  }

  /** One word of a spelled tag: the gap is skipped and the word matched. */
  lemma WordAfterGap(s: string, i: nat, gap: string, w: string, lw: string)
    requires IsBlank(gap) && Lower(w) == lw && |lw| >= 1 && 'a' <= lw[0] <= 'z'
    requires At(s, gap + w, i)
    ensures MatchWord(s, SkipSpaces(s, i), lw) == Some(i + |gap| + |w|)
  {
    AtSplit(s, i, gap, w);
    assert s[i + |gap|] == w[0] && LowerChar(w[0]) == lw[0];
    SkipGap(s, i, gap);
    MatchWordCased(s, i + |gap|, w, lw);
  }

  lemma {:induction false} MatchSpelled(s: string, i: nat, ws: seq<string>, lower: seq<string>, gap: string)
    requires SpellsWords(ws, lower) && IsBlank(gap)
    requires WordList(lower)
    requires At(s, Spell(ws, gap), i)
    ensures MatchWords(s, i, lower) == Some(i + |Spell(ws, gap)|)
    decreases |ws|
  {
    if ws == [] {
      assert lower == [];
    } else {
      var rest := Spell(ws[1..], gap);
      AtSplit(s, i, gap + ws[0], rest);
      WordAfterGap(s, i, gap, ws[0], lower[0]);
      var j := i + |gap| + |ws[0]|;
      assert SpellsWords(ws[1..], lower[1..]);
      MatchSpelled(s, j, ws[1..], lower[1..], gap);
      MatchWordsStep(s, i, lower, j);
    }
  }

  /** Once the first word matches up to `j`, the rest is matched from `j`. */
  lemma MatchWordsStep(s: string, i: nat, lower: seq<string>, j: nat)
    requires i <= |s| && |lower| >= 1 && MatchWord(s, SkipSpaces(s, i), lower[0]) == Some(j)
    ensures MatchWords(s, i, lower) == MatchWords(s, j, lower[1..])
  {
  }

  /** The line of the value ends where the first line terminator is. */
  lemma LineEndIs(s: string, q: nat, e: nat)
    requires q <= e <= |s|
    requires forall k :: q <= k < e ==> !IsLineTerminator(s[k])
    requires e == |s| || IsLineTerminator(s[e])
    ensures LineEnd(s, q) == e
  {
    LineEndStops(s, q);
  }

  /** The pieces of a tag written at `i0`. */
  lemma TagPieces(s: string, i0: nat, popup: string, ws: seq<string>, g1: string, g2: string, g3: string,
                   v: string)
    requires At(s, Tag(popup, ws, g1, g2, g3, v), i0)
    ensures var b := i0 + 1 + |popup| + |Spell(ws, g1)|;
            var q := b + |g2| + 1 + |g3|;
            |Tag(popup, ws, g1, g2, g3, v)| == q - i0 + |v| + 1
            && At(s, "<" + popup, i0) && At(s, Spell(ws, g1), i0 + 1 + |popup|)
            && At(s, g2 + ":", b) && At(s, g3, b + |g2| + 1) && At(s, v, q)
            && s[q + |v|] == '>'
  {
    var h2 := "<" + popup + Spell(ws, g1);
    var h5 := h2 + g2 + ":" + g3;
    assert Tag(popup, ws, g1, g2, g3, v) == h5 + v + ">";
    AtSplit(s, i0, h5 + v, ">");
    AtSplit(s, i0, h5, v);
    AtSplit(s, i0, h2 + g2 + ":", g3);
    assert h2 + g2 + ":" == h2 + (g2 + ":");
    AtSplit(s, i0, h2, g2 + ":");
    AtSplit(s, i0, "<" + popup, Spell(ws, g1));
    assert s[i0 + |h5| + |v|] == ">"[0];
  }

  /** `ValueStart` once the header and the colon are found: the value
      starts after the blank run that follows the colon. */
  lemma ValueAfterColon(s: string, i0: nat, head: string, words: seq<string>, j: nat, k: nat, c: nat,
                        gap: string)
    requires i0 < |s| && s[i0] == '<' && j <= |s| && k <= |s|
    requires MatchWord(s, i0 + 1, head) == Some(j) && MatchWords(s, j, words) == Some(k)
    requires SkipSpaces(s, k) == c && c < |s| && s[c] == ':'
    requires IsBlank(gap) && At(s, gap, c + 1)
    requires c + 1 + |gap| == |s| || !IsSpace(s[c + 1 + |gap|])
    ensures ValueStart(s, i0, head, words) == Some(c + 1 + |gap|)
  {
    SkipGap(s, c + 1, gap);
  }

  /** The header up to the colon: `<`, the word and the spelled words. */
  lemma ValueStartHead(s: string, i0: nat, popup: string, ws: seq<string>, g1: string, g2: string,
                        head: string, words: seq<string>)
    requires Lower(popup) == head && SpellsWords(ws, words) && WordList(words) && IsBlank(g1) && IsBlank(g2)
    requires At(s, "<" + popup, i0) && At(s, Spell(ws, g1), i0 + 1 + |popup|)
    requires At(s, g2 + ":", i0 + 1 + |popup| + |Spell(ws, g1)|)
    ensures var c := i0 + 1 + |popup| + |Spell(ws, g1)| + |g2|;
            s[i0] == '<' && MatchWord(s, i0 + 1, head) == Some(i0 + 1 + |popup|)
            && MatchWords(s, i0 + 1 + |popup|, words) == Some(c - |g2|)
            && SkipSpaces(s, c - |g2|) == c && s[c] == ':'
  {
    OpeningWord(s, i0, popup, head);
    MatchSpelled(s, i0 + 1 + |popup|, ws, words, g1);
    ColonAfterGap(s, i0 + 1 + |popup| + |Spell(ws, g1)|, g2);
  }

  /** `<` and the word "popup", in any case. */
  lemma OpeningWord(s: string, i0: nat, popup: string, head: string)
    requires Lower(popup) == head && At(s, "<" + popup, i0)
    ensures s[i0] == '<' && MatchWord(s, i0 + 1, head) == Some(i0 + 1 + |popup|)
  {
    AtSplit(s, i0, "<", popup);
    MatchWordCased(s, i0 + 1, popup, head);
    assert s[i0] == "<"[0];
  }

  /** The gap before the colon is skipped and the colon found. */
  lemma ColonAfterGap(s: string, b: nat, gap: string)
    requires IsBlank(gap) && At(s, gap + ":", b)
    ensures SkipSpaces(s, b) == b + |gap| && s[b + |gap|] == ':'
  {
    AtSplit(s, b, gap, ":");
    assert s[b + |gap|] == ":"[0];
    SkipGap(s, b, gap);
  }

  lemma AtMiddle(pre: string, t: string, post: string)
    ensures At(pre + t + post, t, |pre|)
  {
  }

  /** `t` sits in `pre + t + post` after `pre` and right before `post`. */
  lemma Between(pre: string, t: string, post: string)
    ensures var s := pre + t + post;
            At(s, t, |pre|) && At(s, pre, 0)
            && (|pre| + |t| < |s| ==> s[|pre| + |t|] == post[0])
  {
    AtMiddle(pre, t, post);
  }

  /** The line of a value followed by `>` and a line end. */
  lemma ValueLine(s: string, q: nat, v: string)
    requires At(s, v, q) && q + |v| < |s| && s[q + |v|] == '>'
    requires OneLine(v)
    requires q + |v| + 1 == |s| || IsLineTerminator(s[q + |v| + 1])
    ensures LineEnd(s, q) == q + |v| + 1
    ensures s[q..q + |v|] == v && s[q..q + |v| + 1] == v + ">"
  {
    var e := q + |v|;
    forall k | q <= k < e
      ensures !IsLineTerminator(s[k])
    {
      assert s[k] == v[k - q];
    }
    LineEndIs(s, q, e + 1);
    assert s[q..e] == v by {
      assert forall k :: 0 <= k < |v| ==> s[q..e][k] == s[q + k] == v[k];
    }
    assert s[q..e + 1] == s[q..e] + [s[e]] by {
      forall k | 0 <= k < e + 1 - q
        ensures s[q..e + 1][k] == (s[q..e] + [s[e]])[k]
      {
      }
    }
  }

  /** The capture once the value and the `>` ending its line are known: the
      value, or the value with that `>` when only `\s` separates the line
      end from another `>`. */
  lemma CaptureAt(s: string, i0: nat, q: nat, v: string, head: string, words: seq<string>)
    requires i0 <= |s| && ValueStart(s, i0, head, words) == Some(q)
    requires At(s, v, q) && q + |v| < |s| && s[q + |v|] == '>'
    requires OneLine(v)
    requires q + |v| + 1 == |s| || IsLineTerminator(s[q + |v| + 1])
    ensures MatchAt(s, i0, head, words)
            == if CloseAfterBlank(s, q + |v| + 1) then Some(v + ">") else Some(v)
  {
    ValueLine(s, q, v);
    CaptureLine(s, i0, q, q + |v|, head, words);
  }

  /** The capture when the value's line ends with a `>` at `e`. */
  lemma CaptureLine(s: string, i0: nat, q: nat, e: nat, head: string, words: seq<string>)
    requires i0 <= |s| && ValueStart(s, i0, head, words) == Some(q)
    requires q <= e < |s| && s[e] == '>' && LineEnd(s, q) == e + 1
    ensures MatchAt(s, i0, head, words)
            == if CloseAfterBlank(s, e + 1) then Some(s[q..e + 1]) else Some(s[q..e])
  {
    assert LastClose(s, q, e + 1) == Some(e);
  }

  /** A written tag, ending its line, is matched where it starts; the
      capture is its value, with the tag's `>` kept when only `\s` lies
      between the line end and another `>`. */
  lemma TagMatchAt(s: string, i0: nat, popup: string, ws: seq<string>, g1: string, g2: string, g3: string, v: string,
                   head: string, words: seq<string>)
    requires Lower(popup) == head && SpellsWords(ws, words) && WordList(words)
    requires IsBlank(g1) && IsBlank(g2) && IsBlank(g3) && (v == [] || !IsSpace(v[0])) && OneLine(v)
    requires At(s, Tag(popup, ws, g1, g2, g3, v), i0)
    requires i0 + |Tag(popup, ws, g1, g2, g3, v)| == |s| || IsLineTerminator(s[i0 + |Tag(popup, ws, g1, g2, g3, v)|])
    ensures MatchAt(s, i0, head, words)
            == if CloseAfterBlank(s, i0 + |Tag(popup, ws, g1, g2, g3, v)|) then Some(v + ">") else Some(v)
  {
    TagPieces(s, i0, popup, ws, g1, g2, g3, v);
    ValueStartHead(s, i0, popup, ws, g1, g2, head, words);
    var b := i0 + 1 + |popup| + |Spell(ws, g1)|;
    var c := b + |g2|;
    var q := c + 1 + |g3|;
    assert !IsSpace(s[q]) by {
      if v != [] {
        assert s[q] == v[0];
      }
    }
    ValueAfterColon(s, i0, head, words, i0 + 1 + |popup|, b, c, g3);
    CaptureAt(s, i0, q, v, head, words);
  }

  /** The first position that starts a match gives the match. */
  lemma FirstMatch(s: string, i0: nat, head: string, words: seq<string>)
    requires i0 <= |s| && MatchAt(s, i0, head, words).Some?
    requires forall j :: 0 <= j < i0 ==> MatchAt(s, j, head, words).None?
    ensures MatchFrom(s, 0, head, words) == MatchAt(s, i0, head, words)
  {
    MatchFromLeftmost(s, 0, head, words);
    var j :| 0 <= j <= |s| && MatchAt(s, j, head, words) == MatchFrom(s, 0, head, words)
             && forall k :: 0 <= k < j ==> MatchAt(s, k, head, words).None?;
    assert j == i0;
  }

  /** Whether `\s` leads to a `>` in `b` is the same within `a + b`. */
  lemma {:induction false} CloseAfterBlankAfter(a: string, b: string, j: nat)
    requires j <= |b|
    ensures CloseAfterBlank(a + b, |a| + j) <==> CloseAfterBlank(b, j)
    decreases |b| - j
  {
    if j < |b| {
      assert (a + b)[|a| + j] == b[j];
      CloseAfterBlankAfter(a, b, j + 1);
    }
  }

  /** A written tag, ending its line, after no position that starts a
      match, gives the first match. */
  lemma TagFirstMatch(s: string, i0: nat, popup: string, ws: seq<string>, g1: string, g2: string, g3: string, v: string,
                      head: string, words: seq<string>)
    requires Lower(popup) == head && SpellsWords(ws, words) && WordList(words)
    requires IsBlank(g1) && IsBlank(g2) && IsBlank(g3) && (v == [] || !IsSpace(v[0])) && OneLine(v)
    requires At(s, Tag(popup, ws, g1, g2, g3, v), i0)
    requires forall j :: 0 <= j < i0 ==> MatchAt(s, j, head, words).None?
    requires i0 + |Tag(popup, ws, g1, g2, g3, v)| == |s| || IsLineTerminator(s[i0 + |Tag(popup, ws, g1, g2, g3, v)|])
    ensures MatchFrom(s, 0, head, words)
            == if CloseAfterBlank(s, i0 + |Tag(popup, ws, g1, g2, g3, v)|) then Some(v + ">") else Some(v)
  {
    TagMatchAt(s, i0, popup, ws, g1, g2, g3, v, head, words);
    FirstMatch(s, i0, head, words);
  }

  /** The match of a written tag of field `f` after pieces none of which
      starts a match of `f`. */
  lemma MatchTagged(ps: seq<Piece>, popup: string, ws: seq<string>, g1: string, g2: string, g3: string, v: string,
                    post: string, f: Field)
    requires Lower(popup) == "popup" && SpellsWords(ws, Words(f)) && AllForeign(ps, f)
    requires IsBlank(g1) && IsBlank(g2) && IsBlank(g3) && (v == [] || !IsSpace(v[0])) && OneLine(v)
    requires post == [] || IsLineTerminator(post[0])
    ensures MatchFrom(Concat(ps) + Tag(popup, ws, g1, g2, g3, v) + post, 0, "popup", Words(f))
            == if CloseAfterBlank(post, 0) then Some(v + ">") else Some(v)
  {
    var s := Concat(ps) + Tag(popup, ws, g1, g2, g3, v) + post;
    Between(Concat(ps), Tag(popup, ws, g1, g2, g3, v), post);
    PiecesNoMatch(s, 0, ps, f);
    MatchAfterQuiet(Concat(ps), popup, ws, g1, g2, g3, v, post, "popup", Words(f));
  }

  /** The match of a written tag after text in which no position starts a
      match. */
  lemma MatchAfterQuiet(pre: string, popup: string, ws: seq<string>, g1: string, g2: string, g3: string, v: string,
                        post: string, head: string, words: seq<string>)
    requires Lower(popup) == head && SpellsWords(ws, words) && WordList(words)
    requires IsBlank(g1) && IsBlank(g2) && IsBlank(g3) && (v == [] || !IsSpace(v[0])) && OneLine(v)
    requires post == [] || IsLineTerminator(post[0])
    requires forall j :: 0 <= j < |pre| ==> MatchAt(pre + Tag(popup, ws, g1, g2, g3, v) + post, j, head, words).None?
    ensures MatchFrom(pre + Tag(popup, ws, g1, g2, g3, v) + post, 0, head, words)
            == if CloseAfterBlank(post, 0) then Some(v + ">") else Some(v)
  {
    var t := Tag(popup, ws, g1, g2, g3, v);
    var s := pre + t + post;
    var e := |pre| + |t|;
    Between(pre, t, post);
    assert e == |s| || IsLineTerminator(s[e]);
    assert CloseAfterBlank(s, e) == CloseAfterBlank(post, 0) by {
      CloseAfterBlankAfter(pre + t, post, 0);
    }
    TagFirstMatch(s, |pre|, popup, ws, g1, g2, g3, v, head, words);
  }

  /** Two words differ at a position both of them reach: neither is a
      prefix of the other. */
  predicate Clash(x: string, y: string) {
    |x| >= 1 && |y| >= 1 && (x[0] != y[0] || Clash(x[1..], y[1..]))
  }

  /** Two word lists part ways: after equal leading words comes a pair of
      words that clash. */
  predicate Diverge(a: seq<string>, b: seq<string>) {
    |a| >= 1 && |b| >= 1 && if a[0] == b[0] then Diverge(a[1..], b[1..]) else Clash(a[0], b[0])
  }

  /** No field's words lead into another's: `color` and `flash color`,
      `duration` and `flash duration` part at their first word, `flash
      color` and `flash duration` at their second. */
  lemma WordsDiverge(f: Field, g: Field)
    requires f != g
    ensures Diverge(Words(f), Words(g))
  {
    match f
    case AddText =>
    case RemoveText =>
    case XPos =>
    case YPos =>
    case Color =>
    case Outline =>
    case Duration =>
    case Animations =>
    case FlashColor =>
    case FlashDuration =>
  }

  /** A word written at `i` stops the match of a word it clashes with. */
  lemma {:induction false} WordClash(s: string, i: nat, w: string, lw: string, x: string)
    requires At(s, w, i) && Lower(w) == lw && Clash(x, lw)
    ensures MatchWord(s, i, x).None?
    decreases |x|
  {
    assert s[i] == w[0] && LowerChar(w[0]) == lw[0];
    if x[0] == lw[0] {
      assert At(s, w[1..], i + 1) by {
        assert forall k :: 0 <= k < |w| - 1 ==> w[1..][k] == w[k + 1];
      }
      assert Lower(w[1..]) == lw[1..];
      WordClash(s, i + 1, w[1..], lw[1..], x[1..]);
    }
  }

  /** Spelled words stop the match of a word list that diverges from them. */
  lemma {:induction false} SpelledDiverge(s: string, i: nat, ws: seq<string>, gap: string, other: seq<string>,
                                          words: seq<string>)
    requires SpellsWords(ws, other) && WordList(other) && IsBlank(gap) && At(s, Spell(ws, gap), i)
    requires Diverge(words, other)
    ensures MatchWords(s, i, words).None?
    decreases |ws|
  {
    var rest := Spell(ws[1..], gap);
    AtSplit(s, i, gap + ws[0], rest);
    if words[0] == other[0] {
      WordAfterGap(s, i, gap, ws[0], other[0]);
      var j := i + |gap| + |ws[0]|;
      assert SpellsWords(ws[1..], other[1..]) && WordList(other[1..]);
      SpelledDiverge(s, j, ws[1..], gap, other[1..], words[1..]);
      MatchWordsStep(s, i, words, j);
    } else {
      AtSplit(s, i, gap, ws[0]);
      assert s[i + |gap|] == ws[0][0] && LowerChar(ws[0][0]) == other[0][0];
      SkipGap(s, i, gap);
      WordClash(s, i + |gap|, ws[0], other[0], words[0]);
    }
  }

  /** The tag of another field fails `f`'s pattern at its `<`. */
  lemma ForeignTagFails(s: string, i0: nat, popup: string, ws: seq<string>, g1: string, g2: string, g3: string,
                        v: string, g: Field, f: Field)
    requires g != f && Lower(popup) == "popup" && SpellsWords(ws, Words(g)) && IsBlank(g1)
    requires At(s, Tag(popup, ws, g1, g2, g3, v), i0)
    ensures MatchAt(s, i0, "popup", Words(f)).None?
  {
    TagPieces(s, i0, popup, ws, g1, g2, g3, v);
    OpeningWord(s, i0, popup, "popup");
    WordsDiverge(f, g);
    SpelledDiverge(s, i0 + 1 + |popup|, ws, g1, Words(g), Words(f));
  }

  /** A piece of a note: text, or the tag of some field. */
  datatype Piece = Plain(text: string)
                 | Other(popup: string, ws: seq<string>, g1: string, g2: string, g3: string, value: string,
                         field: Field)

  function Written(p: Piece): string {
    match p
    case Plain(t) => t
    case Other(popup, ws, g1, g2, g3, v, _) => Tag(popup, ws, g1, g2, g3, v)
  }

  /** The note made of the pieces, in order. */
  function Concat(ps: seq<Piece>): string {
    if ps == [] then "" else Written(ps[0]) + Concat(ps[1..])
  }

  /** Text with no `<`, or a tag spelled as its field's pattern reads it
      whose value has no `<`. */
  predicate WellFormed(p: Piece) {
    match p
    case Plain(t) => '<' !in t
    case Other(popup, ws, g1, g2, g3, v, g) =>
      Lower(popup) == "popup" && SpellsWords(ws, Words(g))
      && IsBlank(g1) && IsBlank(g2) && IsBlank(g3) && '<' !in v
  }

  /** A piece that cannot start a match of `f`'s pattern: well formed, and
      not a tag of `f` itself. */
  predicate Foreign(p: Piece, f: Field) {
    WellFormed(p) && (p.Other? ==> p.field != f)
  }

  predicate AllForeign(ps: seq<Piece>, f: Field) {
    forall k :: 0 <= k < |ps| ==> Foreign(ps[k], f)
  }

  lemma BlankNoOpen(gap: string)
    requires IsBlank(gap)
    ensures '<' !in gap
  {
    forall k | 0 <= k < |gap|
      ensures gap[k] != '<'
    {
      assert IsSpace(gap[k]);
    }
  }

  lemma WordsNoOpen(f: Field)
    ensures forall k :: 0 <= k < |Words(f)| ==> '<' !in Words(f)[k]
  {
  }

  lemma {:induction false} SpellNoOpen(ws: seq<string>, gap: string, words: seq<string>)
    requires SpellsWords(ws, words) && IsBlank(gap)
    requires forall k :: 0 <= k < |words| ==> '<' !in words[k]
    ensures '<' !in Spell(ws, gap)
    decreases |ws|
  {
    if ws != [] {
      BlankNoOpen(gap);
      NoOpenAfterLower(ws[0], words[0]);
      assert SpellsWords(ws[1..], words[1..]);
      SpellNoOpen(ws[1..], gap, words[1..]);
    }
  }

  /** A well-formed tag whose value has no `<` holds no `<` past its first
      character. */
  lemma TagOpensOnce(popup: string, ws: seq<string>, g1: string, g2: string, g3: string, v: string, g: Field)
    requires Lower(popup) == "popup" && SpellsWords(ws, Words(g))
    requires IsBlank(g1) && IsBlank(g2) && IsBlank(g3) && '<' !in v
    ensures forall k :: 0 < k < |Tag(popup, ws, g1, g2, g3, v)| ==> Tag(popup, ws, g1, g2, g3, v)[k] != '<'
  {
    NoOpenAfterLower(popup, "popup");
    WordsNoOpen(g);
    SpellNoOpen(ws, g1, Words(g));
    BlankNoOpen(g2);
    BlankNoOpen(g3);
    var t := Tag(popup, ws, g1, g2, g3, v);
    var tail := popup + Spell(ws, g1) + g2 + ":" + g3 + v + ">";
    assert t == "<" + tail;
    assert '<' !in tail;
    forall k | 0 < k < |t|
      ensures t[k] != '<'
    {
      assert t[k] == tail[k - 1];
    }
  }

  /** No position inside a foreign piece starts a match of `f`. */
  lemma PieceNoMatch(s: string, i: nat, p: Piece, f: Field)
    requires At(s, Written(p), i) && Foreign(p, f)
    ensures forall j :: i <= j < i + |Written(p)| ==> MatchAt(s, j, "popup", Words(f)).None?
  {
    match p
    case Plain(t) =>
      TextNoMatch(s, i, t, "popup", Words(f));
    case Other(popup, ws, g1, g2, g3, v, g) =>
      TagNoMatch(s, i, popup, ws, g1, g2, g3, v, g, f);
  }

  /** No position inside a well-formed tag of another field starts a match
      of `f`. */
  lemma TagNoMatch(s: string, i: nat, popup: string, ws: seq<string>, g1: string, g2: string, g3: string,
                   v: string, g: Field, f: Field)
    requires g != f && Lower(popup) == "popup" && SpellsWords(ws, Words(g))
    requires IsBlank(g1) && IsBlank(g2) && IsBlank(g3) && '<' !in v
    requires At(s, Tag(popup, ws, g1, g2, g3, v), i)
    ensures forall j :: i <= j < i + |Tag(popup, ws, g1, g2, g3, v)| ==> MatchAt(s, j, "popup", Words(f)).None?
  {
    ForeignTagFails(s, i, popup, ws, g1, g2, g3, v, g, f);
    TagOpensOnce(popup, ws, g1, g2, g3, v, g);
    OpensOnceNoMatch(s, i, Tag(popup, ws, g1, g2, g3, v), "popup", Words(f));
  }

  /** No position past the first of a text whose only `<` is its first
      character starts a match. */
  lemma OpensOnceNoMatch(s: string, i: nat, t: string, head: string, words: seq<string>)
    requires At(s, t, i) && forall k :: 0 < k < |t| ==> t[k] != '<'
    ensures forall j :: i < j < i + |t| ==> MatchAt(s, j, head, words).None?
  {
    forall j | i < j < i + |t|
      ensures MatchAt(s, j, head, words).None?
    {
      assert s[j] == t[j - i];
    }
  }

  /** No position inside text with no `<` starts a match. */
  lemma TextNoMatch(s: string, i: nat, t: string, head: string, words: seq<string>)
    requires At(s, t, i) && forall k :: 0 <= k < |t| ==> t[k] != '<'
    ensures forall j :: i <= j < i + |t| ==> MatchAt(s, j, head, words).None?
  {
    forall j | i <= j < i + |t|
      ensures MatchAt(s, j, head, words).None?
    {
      assert s[j] == t[j - i];
    }
  }

  /** No position inside foreign pieces starts a match of `f`. */
  lemma {:induction false} PiecesNoMatch(s: string, i: nat, ps: seq<Piece>, f: Field)
    requires At(s, Concat(ps), i) && AllForeign(ps, f)
    ensures forall j :: i <= j < i + |Concat(ps)| ==> MatchAt(s, j, "popup", Words(f)).None?
    decreases |ps|
  {
    if ps != [] {
      AtSplit(s, i, Written(ps[0]), Concat(ps[1..]));
      PieceNoMatch(s, i, ps[0], f);
      assert AllForeign(ps[1..], f);
      PiecesNoMatch(s, i + |Written(ps[0])|, ps[1..], f);
    }
  }

  lemma {:induction false} ConcatAppend(a: seq<Piece>, b: seq<Piece>)
    ensures Concat(a + b) == Concat(a) + Concat(b)
    decreases |a|
  {
    if a == [] {
      assert a + b == b;
    } else {
      assert (a + b)[0] == a[0] && (a + b)[1..] == a[1..] + b;
      ConcatAppend(a[1..], b);
    }
  }

  lemma ConcatSplit(ps: seq<Piece>, k: nat)
    requires k < |ps|
    ensures Concat(ps) == Concat(ps[..k]) + Written(ps[k]) + Concat(ps[k + 1..])
  {
    var rest := [ps[k]] + ps[k + 1..];
    PiecesAt(ps, k);
    ConcatAppend(ps[..k], rest);
    ConcatCons(ps[k], ps[k + 1..]);
    RegroupPieces(Concat(ps[..k]), Written(ps[k]), Concat(ps[k + 1..]));
  }

  lemma PiecesAt(ps: seq<Piece>, k: nat)
    requires k < |ps|
    ensures ps == ps[..k] + ([ps[k]] + ps[k + 1..])
  {
  }

  lemma ConcatCons(p: Piece, ps: seq<Piece>)
    ensures Concat([p] + ps) == Written(p) + Concat(ps)
  {
    assert ([p] + ps)[0] == p && ([p] + ps)[1..] == ps;
  }

  lemma RegroupPieces(x: string, y: string, z: string)
    ensures x + (y + z) == x + y + z
  {
  }

  /** A note made only of foreign pieces has no tag of `f`: its field keeps
      the default. */
  lemma NoTagAmong(ps: seq<Piece>, f: Field)
    requires AllForeign(ps, f)
    ensures FindTag(Concat(ps), f).None?
  {
    PiecesNoMatch(Concat(ps), 0, ps, f);
    NoOpeningMatches(Concat(ps), "popup", Words(f));
  }

  /** A tag written out in a note, after pieces each of which is text with
      no `<` or a well-formed tag of another field, and before the end of
      the note or of the line, is read back: `popup` and the words in any
      case, and any run of `\s` (or none) before each word, before the colon
      and after it, each run chosen on its own.  The value starts with no
      `\s`, which the pattern would skip, and what follows the line must not
      lead through `\s` alone to a `>`. */
  lemma FindTagRoundTrip(ps: seq<Piece>, popup: string, ws: seq<string>, g1: string, g2: string, g3: string, v: string,
                         post: string, f: Field)
    requires AllForeign(ps, f) && Lower(popup) == "popup" && SpellsWords(ws, Words(f))
    requires IsBlank(g1) && IsBlank(g2) && IsBlank(g3)
    requires (v == [] || !IsSpace(v[0])) && OneLine(v)
    requires post == [] || IsLineTerminator(post[0])
    requires !CloseAfterBlank(post, 0)
    ensures FindTag(Concat(ps) + Tag(popup, ws, g1, g2, g3, v) + post, f) == Some(v)
  {
    MatchTagged(ps, popup, ws, g1, g2, g3, v, post, f);
  }

  /** The documented layout, `<Popup Add Text: value>`: the words in title
      case after one space each, no space before the colon and one after
      it.  X and Y take the letter alone, which is what the pattern reads. */
  function Titled(f: Field): seq<string> {
    match f
    case AddText => ["Add", "Text"]
    case RemoveText => ["Remove", "Text"]
    case XPos => ["X"]
    case YPos => ["Y"]
    case Color => ["Color"]
    case Outline => ["Outline"]
    case Duration => ["Duration"]
    case Animations => ["Animations"]
    case FlashColor => ["Flash", "Color"]
    case FlashDuration => ["Flash", "Duration"]
  }

  /** A word with an upper-case head and a tail with no upper-case letter. */
  lemma LowerTitle(w: string, lw: string)
    requires |w| == |lw| >= 1 && 'A' <= w[0] <= 'Z' && lw[0] as int == w[0] as int + 32
    requires forall i :: 1 <= i < |w| ==> lw[i] == w[i] && !('A' <= w[i] <= 'Z')
    ensures Lower(w) == lw
  {
    forall i | 0 <= i < |w|
      ensures Lower(w)[i] == lw[i]
    {
      assert Lower(w)[i] == LowerChar(w[i]);
    }
  }

  lemma TitledSpells(f: Field)
    ensures SpellsWords(Titled(f), Words(f))
  {
    match f
    case AddText => LowerTitle("Add", "add"); LowerTitle("Text", "text");
    case RemoveText => LowerTitle("Remove", "remove"); LowerTitle("Text", "text");
    case XPos => LowerTitle("X", "x");
    case YPos => LowerTitle("Y", "y");
    case Color => LowerTitle("Color", "color");
    case Outline => LowerTitle("Outline", "outline");
    case Duration => LowerTitle("Duration", "duration");
    case Animations => LowerTitle("Animations", "animations");
    case FlashColor => LowerTitle("Flash", "flash"); LowerTitle("Color", "color");
    case FlashDuration => LowerTitle("Flash", "flash"); LowerTitle("Duration", "duration");
  }

  /** A field's tag in the documented layout, with the value `v`. */
  function DocumentedTag(f: Field, v: string): string {
    "<Popup" + Spell(Titled(f), " ") + ": " + v + ">"
  }

  lemma DocumentedIsTag(f: Field, v: string)
    ensures DocumentedTag(f, v) == Tag("Popup", Titled(f), " ", "", " ", v)
  {
    var sp := Spell(Titled(f), " ");
    assert "<Popup" + sp + ":" + " " == "<Popup" + sp + ": ";
  }

  /** Each field's tag in its documented layout is read back. */
  lemma FindTagDocumented(ps: seq<Piece>, v: string, post: string, f: Field)
    requires AllForeign(ps, f) && (v == [] || !IsSpace(v[0])) && OneLine(v)
    requires post == [] || IsLineTerminator(post[0])
    requires !CloseAfterBlank(post, 0)
    ensures FindTag(Concat(ps) + DocumentedTag(f, v) + post, f) == Some(v)
  {
    LowerTitle("Popup", "popup");
    TitledSpells(f);
    DocumentedIsTag(f, v);
    FindTagRoundTrip(ps, "Popup", Titled(f), " ", "", " ", v, post, f);
  }

  /** When the next non-`\s` character after the tag's line is a `>`, the
      pattern's `\s*>` runs over the line end to reach it and the greedy
      capture keeps the tag's own `>`: the value is read with a `>`
      appended. */
  lemma FindTagCloseNextLine(ps: seq<Piece>, popup: string, ws: seq<string>, g1: string, g2: string, g3: string, v: string,
                             post: string, f: Field)
    requires AllForeign(ps, f) && Lower(popup) == "popup" && SpellsWords(ws, Words(f))
    requires IsBlank(g1) && IsBlank(g2) && IsBlank(g3)
    requires (v == [] || !IsSpace(v[0])) && OneLine(v)
    requires post != [] && IsLineTerminator(post[0]) && CloseAfterBlank(post, 0)
    ensures FindTag(Concat(ps) + Tag(popup, ws, g1, g2, g3, v) + post, f) == Some(v + ">")
  {
    MatchTagged(ps, popup, ws, g1, g2, g3, v, post, f);
  }

  /** A tag of `f` among the pieces of a note is read back when every
      piece before it is foreign to `f`, and what follows it ends the note
      or starts a new line and does not lead through `\s` alone to a `>`. */
  lemma FindTagInPieces(ps: seq<Piece>, k: nat, f: Field)
    requires k < |ps| && ps[k].Other? && ps[k].field == f && WellFormed(ps[k])
    requires AllForeign(ps[..k], f)
    requires (ps[k].value == [] || !IsSpace(ps[k].value[0])) && OneLine(ps[k].value)
    requires var post := Concat(ps[k + 1..]);
             (post == [] || IsLineTerminator(post[0])) && !CloseAfterBlank(post, 0)
    ensures FindTag(Concat(ps), f) == Some(ps[k].value)
  {
    ConcatSplit(ps, k);
    var p := ps[k];
    FindTagRoundTrip(ps[..k], p.popup, p.ws, p.g1, p.g2, p.g3, p.value, Concat(ps[k + 1..]), f);
  }

  /** A written tag opens with `<`. */
  lemma WrittenOpens(p: Piece)
    requires p.Other?
    ensures |Written(p)| >= 1 && Written(p)[0] == '<'
  {
  }

  /** Three well-formed tags of three different fields, one per line, are
      each read back, and no other field finds a tag. */
  lemma ThreeTags(s: string, a: Piece, b: Piece, c: Piece)
    requires a.Other? && b.Other? && c.Other? && WellFormed(a) && WellFormed(b) && WellFormed(c)
    requires a.field != b.field && a.field != c.field && b.field != c.field
    requires (a.value == [] || !IsSpace(a.value[0])) && OneLine(a.value)
    requires (b.value == [] || !IsSpace(b.value[0])) && OneLine(b.value)
    requires (c.value == [] || !IsSpace(c.value[0])) && OneLine(c.value)
    requires s == Written(a) + "\n" + Written(b) + "\n" + Written(c)
    ensures FindTag(s, a.field) == Some(a.value)
    ensures FindTag(s, b.field) == Some(b.value)
    ensures FindTag(s, c.field) == Some(c.value)
    ensures forall f :: f != a.field && f != b.field && f != c.field ==> FindTag(s, f).None?
  {
    var ps := [a, Plain("\n"), b, Plain("\n"), c];
    ThreeConcat(a, b, c);
    ThreeTagsFirst(ps);
    ThreeTagsSecond(ps);
    ThreeTagsThird(ps);
    forall f | f != a.field && f != b.field && f != c.field
      ensures FindTag(s, f).None?
    {
      ThreeTagsOther(ps, f);
    }
  }

  lemma ThreeTagsOther(ps: seq<Piece>, f: Field)
    requires |ps| == 5 && ps[1] == Plain("\n") && ps[3] == Plain("\n")
    requires ps[0].Other? && ps[2].Other? && ps[4].Other?
    requires WellFormed(ps[0]) && WellFormed(ps[2]) && WellFormed(ps[4])
    requires f != ps[0].field && f != ps[2].field && f != ps[4].field
    ensures FindTag(Concat(ps), f).None?
  {
    FiveForeign(ps, f);
    NoTagAmong(ps, f);
  }

  lemma FiveForeign(ps: seq<Piece>, f: Field)
    requires |ps| == 5 && ps[1] == Plain("\n") && ps[3] == Plain("\n")
    requires ps[0].Other? && ps[2].Other? && ps[4].Other?
    requires WellFormed(ps[0]) && WellFormed(ps[2]) && WellFormed(ps[4])
    requires f != ps[0].field && f != ps[2].field && f != ps[4].field
    ensures AllForeign(ps, f)
  {
  }

  /** Right-nested appends, as the pieces are joined, equal left-nested ones. */
  lemma RegroupLines(x: string, y: string, z: string)
    ensures x + ("\n" + (y + ("\n" + (z + "")))) == x + "\n" + y + "\n" + z
  {
  }

  lemma ThreeConcat(a: Piece, b: Piece, c: Piece)
    ensures Concat([a, Plain("\n"), b, Plain("\n"), c]) == Written(a) + "\n" + Written(b) + "\n" + Written(c)
  {
    var ps := [a, Plain("\n"), b, Plain("\n"), c];
    assert Concat(ps[4..]) == Written(c) + Concat(ps[5..]);
    assert Concat(ps[3..]) == "\n" + Concat(ps[4..]);
    assert Concat(ps[2..]) == Written(b) + Concat(ps[3..]);
    assert Concat(ps[1..]) == "\n" + Concat(ps[2..]);
    RegroupLines(Written(a), Written(b), Written(c));
  }

  lemma ThreeTagsFirst(ps: seq<Piece>)
    requires |ps| == 5 && ps[0].Other? && WellFormed(ps[0]) && ps[1] == Plain("\n") && ps[2].Other?
    requires (ps[0].value == [] || !IsSpace(ps[0].value[0])) && OneLine(ps[0].value)
    ensures FindTag(Concat(ps), ps[0].field) == Some(ps[0].value)
  {
    NextLineOpens(ps, 1);
    assert AllForeign(ps[..0], ps[0].field);
    FindTagInPieces(ps, 0, ps[0].field);
  }

  lemma ThreeTagsSecond(ps: seq<Piece>)
    requires |ps| == 5 && ps[0].Other? && WellFormed(ps[0]) && ps[1] == Plain("\n")
    requires ps[2].Other? && WellFormed(ps[2]) && ps[3] == Plain("\n") && ps[4].Other?
    requires ps[0].field != ps[2].field
    requires (ps[2].value == [] || !IsSpace(ps[2].value[0])) && OneLine(ps[2].value)
    ensures FindTag(Concat(ps), ps[2].field) == Some(ps[2].value)
  {
    NextLineOpens(ps, 3);
    TwoForeign(ps, ps[2].field);
    FindTagInPieces(ps, 2, ps[2].field);
  }

  /** A line break followed by a tag: a line end not followed by `\s` and
      `>`. */
  lemma NextLineOpens(ps: seq<Piece>, k: nat)
    requires k + 1 < |ps| && ps[k] == Plain("\n") && ps[k + 1].Other?
    ensures var post := Concat(ps[k..]);
            |post| >= 1 && IsLineTerminator(post[0]) && !CloseAfterBlank(post, 0)
  {
    var post := Concat(ps[k..]);
    WrittenOpens(ps[k + 1]);
    assert ps[k..][1..] == ps[k + 1..];
    assert Concat(ps[k + 1..]) == Written(ps[k + 1]) + Concat(ps[k + 2..]);
    assert post == "\n" + Concat(ps[k + 1..]);
    assert post[1] == '<';
  }

  lemma TwoForeign(ps: seq<Piece>, f: Field)
    requires |ps| >= 2 && ps[1] == Plain("\n") && ps[0].Other? && WellFormed(ps[0]) && f != ps[0].field
    ensures AllForeign(ps[..2], f)
  {
  }

  lemma ThreeTagsThird(ps: seq<Piece>)
    requires |ps| == 5 && ps[0].Other? && WellFormed(ps[0]) && ps[1] == Plain("\n")
    requires ps[2].Other? && WellFormed(ps[2]) && ps[3] == Plain("\n") && ps[4].Other? && WellFormed(ps[4])
    requires ps[0].field != ps[4].field && ps[2].field != ps[4].field
    requires (ps[4].value == [] || !IsSpace(ps[4].value[0])) && OneLine(ps[4].value)
    ensures FindTag(Concat(ps), ps[4].field) == Some(ps[4].value)
  {
    assert Concat(ps[5..]) == "";
    FourForeign(ps, ps[4].field);
    FindTagInPieces(ps, 4, ps[4].field);
  }

  lemma FourForeign(ps: seq<Piece>, f: Field)
    requires |ps| == 5 && ps[1] == Plain("\n") && ps[3] == Plain("\n")
    requires ps[0].Other? && ps[2].Other? && WellFormed(ps[0]) && WellFormed(ps[2])
    requires f != ps[0].field && f != ps[2].field
    ensures AllForeign(ps[..4], f)
  {
  }

  /** The plugin's own example note: three tags on three lines. */
  const ExampleNote: string :=
    "<Popup Add Text:    Poison Was Added!>" + "\n" +
    "<Popup Outline:     #0FF0FF>" + "\n" +
    "<Popup Flash Color: 120, 100, 50, 160>"

  /** The example's tags, as pieces. */
  function ExampleAddText(): Piece {
    Other("Popup", Titled(AddText), " ", "", "    ", "Poison Was Added!", AddText)
  }

  function ExampleOutline(): Piece {
    Other("Popup", Titled(Outline), " ", "", "     ", "#0FF0FF", Outline)
  }

  function ExampleFlashColor(): Piece {
    Other("Popup", Titled(FlashColor), " ", "", " ", "120, 100, 50, 160", FlashColor)
  }

  lemma ExampleWritten()
    ensures Written(ExampleAddText()) + "\n" + Written(ExampleOutline()) + "\n" + Written(ExampleFlashColor())
            == ExampleNote
  {
    WrittenAddText();
    WrittenOutline();
    WrittenFlashColor();
  }

  lemma WrittenAddText()
    ensures Written(ExampleAddText()) == "<Popup Add Text:    Poison Was Added!>"
  {
    SpellAddText();
    HeadAddText();
    LineAddText();
  }

  lemma SpellAddText()
    ensures Spell(Titled(AddText), " ") == " Add Text"
  {
  }

  lemma HeadAddText()
    ensures "<" + "Popup" + " Add Text" + "" + ":" == "<Popup Add Text:"
  {
  }

  lemma LineAddText()
    ensures "<Popup Add Text:" + "    " + "Poison Was Added!" + ">" == "<Popup Add Text:    Poison Was Added!>"
  {
  }

  lemma WrittenOutline()
    ensures Written(ExampleOutline()) == "<Popup Outline:     #0FF0FF>"
  {
    SpellOutline();
    HeadOutline();
    LineOutline();
  }

  lemma SpellOutline()
    ensures Spell(Titled(Outline), " ") == " Outline"
  {
  }

  lemma HeadOutline()
    ensures "<" + "Popup" + " Outline" + "" + ":" == "<Popup Outline:"
  {
  }

  lemma LineOutline()
    ensures "<Popup Outline:" + "     " + "#0FF0FF" + ">" == "<Popup Outline:     #0FF0FF>"
  {
  }

  lemma WrittenFlashColor()
    ensures Written(ExampleFlashColor()) == "<Popup Flash Color: 120, 100, 50, 160>"
  {
    SpellFlashColor();
    HeadFlashColor();
    LineFlashColor();
  }

  lemma SpellFlashColor()
    ensures Spell(Titled(FlashColor), " ") == " Flash Color"
  {
  }

  lemma HeadFlashColor()
    ensures "<" + "Popup" + " Flash Color" + "" + ":" == "<Popup Flash Color:"
  {
  }

  lemma LineFlashColor()
    ensures "<Popup Flash Color:" + " " + "120, 100, 50, 160" + ">" == "<Popup Flash Color: 120, 100, 50, 160>"
  {
  }

  /** The example's three tags are each read back, and no other field finds
      one. */
  lemma ExampleTags(s: string)
    requires s == ExampleNote
    ensures FindTag(s, AddText) == Some("Poison Was Added!")
    ensures FindTag(s, Outline) == Some("#0FF0FF")
    ensures FindTag(s, FlashColor) == Some("120, 100, 50, 160")
    ensures forall f :: f != AddText && f != Outline && f != FlashColor ==> FindTag(s, f).None?
  {
    ExampleWritten();
    FitsAddText();
    FitsOutline();
    FitsFlashColor();
    DocumentedWellFormed(AddText, "    ", "Poison Was Added!");
    DocumentedWellFormed(Outline, "     ", "#0FF0FF");
    DocumentedWellFormed(FlashColor, " ", "120, 100, 50, 160");
    ThreeTags(s, ExampleAddText(), ExampleOutline(), ExampleFlashColor());
  }

  /** A tag in the documented layout is well-formed when its gap after the
      colon is blank and its value is one line with no `<` that does not
      start with `\s`. */
  lemma DocumentedWellFormed(f: Field, g3: string, v: string)
    requires IsBlank(g3) && '<' !in v && |v| >= 1 && !IsSpace(v[0]) && OneLine(v)
    ensures WellFormed(Other("Popup", Titled(f), " ", "", g3, v, f))
  {
    LowerTitle("Popup", "popup");
    TitledSpells(f);
  }

  lemma FitsAddText()
    ensures IsBlank("    ") && '<' !in "Poison Was Added!" && |"Poison Was Added!"| >= 1
    ensures !IsSpace("Poison Was Added!"[0]) && OneLine("Poison Was Added!")
  {
  }

  lemma FitsOutline()
    ensures IsBlank("     ") && '<' !in "#0FF0FF" && |"#0FF0FF"| >= 1
    ensures !IsSpace("#0FF0FF"[0]) && OneLine("#0FF0FF")
  {
  }

  lemma FitsFlashColor()
    ensures IsBlank(" ") && '<' !in "120, 100, 50, 160" && |"120, 100, 50, 160"| >= 1
    ensures !IsSpace("120, 100, 50, 160"[0]) && OneLine("120, 100, 50, 160")
  {
  }

  /** The example note sets the add text, the outline and the flash colour,
      and leaves every other field at its default. */
  lemma ExampleInfo(s: string, d: PopupInfo, flashList: string -> seq<int>)
    requires s == ExampleNote
    ensures InfoFor(s, d, flashList)
            == d.(addText := "Poison Was Added!", outline := "#0FF0FF",
                  flashColor := flashList("120, 100, 50, 160"))
  {
    var e := d.(addText := "Poison Was Added!", outline := "#0FF0FF",
                flashColor := flashList("120, 100, 50, 160"));
    ExampleTags(s);
    forall f ensures Get(InfoFor(s, d, flashList), f) == Get(e, f) {
      InfoForField(s, d, flashList, f);
    }
    InfoExt(InfoFor(s, d, flashList), e);
  }

  /** A state's popup information: what each of the ten tags sets. */
  datatype PopupInfo = PopupInfo(addText: string, remText: string, x: string, y: string,
                                 color: string, outline: string, duration: Option<int>,
                                 animations: seq<string>, flashColor: seq<int>,
                                 flashDuration: Option<int>)

  /** A field's value, whatever its type. */
  datatype Value = Text(text: string) | Number(number: Option<int>)
                 | Names(names: seq<string>) | Numbers(numbers: seq<int>)

  function Get(info: PopupInfo, f: Field): Value {
    match f
    case AddText => Text(info.addText)
    case RemoveText => Text(info.remText)
    case XPos => Text(info.x)
    case YPos => Text(info.y)
    case Color => Text(info.color)
    case Outline => Text(info.outline)
    case Duration => Number(info.duration)
    case Animations => Names(info.animations)
    case FlashColor => Numbers(info.flashColor)
    case FlashDuration => Number(info.flashDuration)
  }

  /** How a captured value becomes the field's value: the durations by
      `parseInt`, the animations by the comma split, the flash colour by
      evaluating `[capture]` (`flashList`), the rest as text. */
  function Decode(f: Field, capture: string, flashList: string -> seq<int>): Value {
    match f
    case Duration => Number(ParseInt(capture))
    case FlashDuration => Number(ParseInt(capture))
    case Animations => Names(SplitList(capture))
    case FlashColor => Numbers(flashList(capture))
    case _ => Text(capture)
  }

  function TextOr(m: Option<string>, default: string): string {
    match m
    case Some(c) => c
    case None => default
  }

  function NumberOr(m: Option<string>, default: Option<int>): Option<int> {
    match m
    case Some(c) => ParseInt(c)
    case None => default
  }

  /** The popup information `loadNotetags` gives a state with note `note`:
      each field from its tag when the note has one, else from `d`, the
      plugin's defaults. */
  function InfoFor(note: string, d: PopupInfo, flashList: string -> seq<int>): PopupInfo {
    PopupInfo(TextOr(FindTag(note, AddText), d.addText),
              TextOr(FindTag(note, RemoveText), d.remText),
              TextOr(FindTag(note, XPos), d.x),
              TextOr(FindTag(note, YPos), d.y),
              TextOr(FindTag(note, Color), d.color),
              TextOr(FindTag(note, Outline), d.outline),
              NumberOr(FindTag(note, Duration), d.duration),
              match FindTag(note, Animations) { case Some(c) => SplitList(c) case None => d.animations },
              match FindTag(note, FlashColor) { case Some(c) => flashList(c) case None => d.flashColor },
              NumberOr(FindTag(note, FlashDuration), d.flashDuration))
  }

  /** Each field is read from its own tag alone: the decoded capture when
      the tag is present, the default otherwise. */
  lemma InfoForField(note: string, d: PopupInfo, flashList: string -> seq<int>, f: Field)
    ensures FindTag(note, f).Some? ==> Get(InfoFor(note, d, flashList), f) == Decode(f, FindTag(note, f).value, flashList)
    ensures FindTag(note, f).None? ==> Get(InfoFor(note, d, flashList), f) == Get(d, f)
  {
    var info := InfoFor(note, d, flashList);
    var m := FindTag(note, f);
    match f
    case AddText => assert info.addText == TextOr(m, d.addText);
    case RemoveText => assert info.remText == TextOr(m, d.remText);
    case XPos => assert info.x == TextOr(m, d.x);
    case YPos => assert info.y == TextOr(m, d.y);
    case Color => assert info.color == TextOr(m, d.color);
    case Outline => assert info.outline == TextOr(m, d.outline);
    case Duration => assert info.duration == NumberOr(m, d.duration);
    case Animations =>
    case FlashColor =>
    case FlashDuration => assert info.flashDuration == NumberOr(m, d.flashDuration);
  }

  /** Two popup records that agree on every field are equal. */
  lemma InfoExt(a: PopupInfo, b: PopupInfo)
    requires forall f :: Get(a, f) == Get(b, f)
    ensures a == b
  {
    assert Get(a, AddText) == Get(b, AddText) && Get(a, RemoveText) == Get(b, RemoveText);
    assert Get(a, XPos) == Get(b, XPos) && Get(a, YPos) == Get(b, YPos);
    assert Get(a, Color) == Get(b, Color) && Get(a, Outline) == Get(b, Outline);
    assert Get(a, Duration) == Get(b, Duration) && Get(a, Animations) == Get(b, Animations);
    assert Get(a, FlashColor) == Get(b, FlashColor) && Get(a, FlashDuration) == Get(b, FlashDuration);
  }

  /** No match is found when every `<` of the note fails to start one. */
  lemma NoOpeningMatches(s: string, head: string, words: seq<string>)
    requires forall j :: 0 <= j < |s| && s[j] == '<' ==> MatchAt(s, j, head, words).None?
    ensures MatchFrom(s, 0, head, words).None?
  {
    MatchFromLeftmost(s, 0, head, words);
  }

  /** A note without `<` carries no tag. */
  lemma NoTagFound(note: string, f: Field)
    requires '<' !in note
    ensures FindTag(note, f).None?
  {
    NoOpeningMatches(note, "popup", Words(f));
  }

  /** A note without `<` gets the defaults in every field. */
  lemma NoTagDefaults(note: string, d: PopupInfo, flashList: string -> seq<int>)
    requires '<' !in note
    ensures InfoFor(note, d, flashList) == d
  {
    forall f ensures Get(InfoFor(note, d, flashList), f) == Get(d, f) {
      NoTagFound(note, f);
      InfoForField(note, d, flashList, f);
    }
    InfoExt(InfoFor(note, d, flashList), d);
  }

  /** A tag written into a note sets its field to the decoded value. */
  lemma InfoForRoundTrip(ps: seq<Piece>, popup: string, ws: seq<string>, g1: string, g2: string, g3: string, v: string,
                         post: string, f: Field, d: PopupInfo, flashList: string -> seq<int>)
    requires AllForeign(ps, f) && Lower(popup) == "popup" && SpellsWords(ws, Words(f))
    requires IsBlank(g1) && IsBlank(g2) && IsBlank(g3)
    requires (v == [] || !IsSpace(v[0])) && OneLine(v)
    requires post == [] || IsLineTerminator(post[0])
    requires !CloseAfterBlank(post, 0)
    ensures Get(InfoFor(Concat(ps) + Tag(popup, ws, g1, g2, g3, v) + post, d, flashList), f) == Decode(f, v, flashList)
  {
    FindTagRoundTrip(ps, popup, ws, g1, g2, g3, v, post, f);
    InfoForField(Concat(ps) + Tag(popup, ws, g1, g2, g3, v) + post, d, flashList, f);
  }

  /** An animations tag listing names with ", " between them gives back
      those names. */
  lemma AnimationsRoundTrip(ps: seq<Piece>, popup: string, ws: seq<string>, g1: string, g2: string, g3: string,
                            names: seq<string>, post: string, d: PopupInfo, flashList: string -> seq<int>)
    requires AllForeign(ps, Animations) && Lower(popup) == "popup" && SpellsWords(ws, Words(Animations))
    requires IsBlank(g1) && IsBlank(g2) && IsBlank(g3)
    requires |names| >= 1
    requires forall i :: 0 <= i < |names| ==> CommaFree(names[i]) && Tight(names[i]) && OneLine(names[i])
    requires post == [] || IsLineTerminator(post[0])
    requires !CloseAfterBlank(post, 0)
    ensures InfoFor(Concat(ps) + Tag(popup, ws, g1, g2, g3, JoinWith(names, ", ")) + post, d, flashList).animations == names
  {
    var v := JoinWith(names, ", ");
    assert OneLine(v) by { JoinOneLine(names); }
    assert v == [] || !IsSpace(v[0]) by { JoinStart(names); }
    FindTagRoundTrip(ps, popup, ws, g1, g2, g3, v, post, Animations);
    AnimationsField(Concat(ps) + Tag(popup, ws, g1, g2, g3, v) + post, d, flashList, v);
    SplitListJoin(names);
  }

  lemma AnimationsField(note: string, d: PopupInfo, flashList: string -> seq<int>, v: string)
    requires FindTag(note, Animations) == Some(v)
    ensures InfoFor(note, d, flashList).animations == SplitList(v)
  {
    InfoForField(note, d, flashList, Animations);
  }

  /** Names on one line, joined, stay on one line. */
  lemma {:induction false} JoinOneLine(names: seq<string>)
    requires |names| >= 1 && forall i :: 0 <= i < |names| ==> OneLine(names[i])
    ensures OneLine(JoinWith(names, ", "))
  {
    if |names| > 1 {
      JoinOneLine(names[1..]);
      var rest := JoinWith(names[1..], ", ");
      var s := names[0] + ", " + rest;
      assert forall k :: |names[0]| + 2 <= k < |s| ==> s[k] == rest[k - |names[0]| - 2];
    }
  }

  /** The joined list starts with the first name's first character. */
  lemma JoinStart(names: seq<string>)
    requires |names| >= 1 && Tight(names[0])
    ensures JoinWith(names, ", ") == [] || !IsSpace(JoinWith(names, ", ")[0])
  {
    if |names| > 1 && names[0] == [] {
      assert JoinWith(names, ", ")[0] == ',';
    }
  }

  /** A word with no `<` once lower-cased has none as written. */
  lemma NoOpenAfterLower(x: string, lx: string)
    requires Lower(x) == lx && '<' !in lx
    ensures '<' !in x
  {
    forall k | 0 <= k < |x|
      ensures x[k] != '<'
    {
      assert lx[k] == LowerChar(x[k]);
    }
  }

  /** In such a note the only `<` is the one opening the tag. */
  lemma OffsetNote(pre: string, popup: string, ga: string, gb: string, letter: string, w: string, rest: string, lw: string)
    requires '<' !in pre && '<' !in rest && '<' !in w
    requires Lower(popup) == "popup" && IsBlank(ga) && IsBlank(gb) && Lower(letter) == lw && '<' !in lw
    ensures var s := pre + "<" + popup + ga + letter + gb + w + rest;
            At(s, "<" + popup + ga + letter + gb + w, |pre|)
            && forall j :: 0 <= j < |s| && s[j] == '<' ==> j == |pre|
  {
    var t := "<" + popup + ga + letter + gb + w;
    var tail := popup + ga + letter + gb + w + rest;
    var s := pre + "<" + popup + ga + letter + gb + w + rest;
    assert s == pre + t + rest && s == pre + "<" + tail;
    AtMiddle(pre, t, rest);
    NoOpenAfterLower(popup, "popup");
    NoOpenAfterLower(letter, lw);
    BlankNoOpen(ga);
    BlankNoOpen(gb);
    assert '<' !in tail;
    forall j | 0 <= j < |s| && j != |pre|
      ensures s[j] != '<'
    {
      if j < |pre| {
        assert s[j] == pre[j];
      } else {
        assert s[j] == tail[j - |pre| - 1];
      }
    }
  }

  /** The X and Y tags take the colon right after the axis letter, so a tag
      with another word there, such as `<Popup X Offset: 30>`, is not read
      and the field keeps its default. */
  lemma OffsetTagIgnored(pre: string, popup: string, ga: string, gb: string, letter: string, w: string,
                         rest: string, f: Field, d: PopupInfo, flashList: string -> seq<int>)
    requires f == XPos || f == YPos
    requires '<' !in pre && '<' !in rest && '<' !in w
    requires Lower(popup) == "popup" && IsBlank(ga) && IsBlank(gb) && SpellsWords([letter], Words(f))
    requires |w| >= 1 && w[0] != ':' && !IsSpace(w[0])
    ensures FindTag(pre + "<" + popup + ga + letter + gb + w + rest, f).None?
    ensures Get(InfoFor(pre + "<" + popup + ga + letter + gb + w + rest, d, flashList), f) == Get(d, f)
  {
    var s := pre + "<" + popup + ga + letter + gb + w + rest;
    assert '<' !in Words(f)[0];
    OffsetNote(pre, popup, ga, gb, letter, w, rest, Words(f)[0]);
    OffsetTagNotFound(s, |pre|, popup, ga, gb, letter, w, f);
    InfoForField(s, d, flashList, f);
  }

  /** The only `<` of the note opens the offset tag, whose match fails. */
  lemma OffsetTagNotFound(s: string, i0: nat, popup: string, ga: string, gb: string, letter: string, w: string, f: Field)
    requires f == XPos || f == YPos
    requires Lower(popup) == "popup" && IsBlank(ga) && IsBlank(gb) && SpellsWords([letter], Words(f))
    requires |w| >= 1 && w[0] != ':' && !IsSpace(w[0])
    requires At(s, "<" + popup + ga + letter + gb + w, i0)
    requires forall j :: 0 <= j < |s| && s[j] == '<' ==> j == i0
    ensures FindTag(s, f).None?
  {
    OffsetTagFails(s, i0, popup, ga, gb, letter, w, Words(f));
    NoOpeningMatches(s, "popup", Words(f));
  }

  lemma OffsetPieces(s: string, i0: nat, popup: string, ga: string, gb: string, letter: string, w: string)
    requires |w| >= 1 && At(s, "<" + popup + ga + letter + gb + w, i0)
    ensures var j := i0 + 1 + |popup|;
            var k := j + |ga| + |letter|;
            At(s, "<" + popup, i0) && At(s, ga + letter, j) && At(s, gb, k)
            && k + |gb| < |s| && s[k + |gb|] == w[0]
  {
    AtSplit(s, i0, "<" + popup + ga + letter + gb, w);
    AtSplit(s, i0, "<" + popup + ga + letter, gb);
    assert "<" + popup + ga + letter == "<" + popup + (ga + letter);
    AtSplit(s, i0, "<" + popup, ga + letter);
  }

  /** The match attempt at the `<` of such a tag fails at the colon. */
  lemma OffsetTagFails(s: string, i0: nat, popup: string, ga: string, gb: string, letter: string, w: string,
                       words: seq<string>)
    requires Lower(popup) == "popup" && IsBlank(ga) && IsBlank(gb) && |words| == 1 && WordList(words)
    requires Lower(letter) == words[0]
    requires |w| >= 1 && w[0] != ':' && !IsSpace(w[0])
    requires At(s, "<" + popup + ga + letter + gb + w, i0)
    ensures MatchAt(s, i0, "popup", words).None?
  {
    var j := i0 + 1 + |popup|;
    var k := j + |ga| + |letter|;
    OffsetPieces(s, i0, popup, ga, gb, letter, w);
    OpeningWord(s, i0, popup, "popup");
    WordAfterGap(s, j, ga, letter, words[0]);
    assert MatchWords(s, j, words) == Some(k);
    assert s[k + |gb|] == w[0];
    SkipGap(s, k, gb);
  }

  /** An entry of the state table: the engine's state record with the popup
      information the loader attaches to it. */
  datatype DataState = DataState(name: string, note: string, popupInfo: Option<PopupInfo>)

  /** The popup information the loader gives each note. */
  function InfoOf(d: PopupInfo, flashList: string -> seq<int>): string -> PopupInfo {
    note => InfoFor(note, d, flashList)
  }

  /** Entry `i` of the state table after loading, where `info` gives the
      popup information of a note: a state at index 1 or later gets the
      information of its note; index 0 and empty entries are left alone. */
  function Loaded(entry: Option<DataState>, i: nat, info: string -> PopupInfo): Option<DataState> {
    if i >= 1 && entry.Some? then
      Some(entry.value.(popupInfo := Some(info(entry.value.note))))
    else entry
  }

  /** One text field of the loader: the tag's capture, or the default. */
  method ReadText(note: string, f: Field, default: string) returns (v: string)
    ensures v == TextOr(FindTag(note, f), default)
  {
    var m := FindTag(note, f);
    if m.Some? {
      v := m.value;
    } else {
      v := default;
    }
  }

  /** One duration field of the loader: `parseInt` of the capture, or the
      default. */
  method ReadNumber(note: string, f: Field, default: Option<int>) returns (v: Option<int>)
    ensures v == NumberOr(FindTag(note, f), default)
  {
    var m := FindTag(note, f);
    if m.Some? {
      v := ParseInt(m.value);
    } else {
      v := default;
    }
  }

  /** The body of the loader for one state: the ten tags tried in turn, each
      field set from its tag's capture or from the default. */
  method ReadPopupInfo(note: string, d: PopupInfo, flashList: string -> seq<int>) returns (info: PopupInfo)
    ensures info == InfoFor(note, d, flashList)
  {
    var addText := ReadText(note, AddText, d.addText);
    var remText := ReadText(note, RemoveText, d.remText);
    var x := ReadText(note, XPos, d.x);
    var y := ReadText(note, YPos, d.y);
    var color := ReadText(note, Color, d.color);
    var outline := ReadText(note, Outline, d.outline);
    var duration := ReadNumber(note, Duration, d.duration);
    var animations := d.animations;
    var m := FindTag(note, Animations);
    if m.Some? {
      animations := SplitList(m.value);
    }
    var flashColor := d.flashColor;
    m := FindTag(note, FlashColor);
    if m.Some? {
      flashColor := flashList(m.value);
    }
    var flashDuration := ReadNumber(note, FlashDuration, d.flashDuration);
    info := PopupInfo(addText, remText, x, y, color, outline, duration, animations, flashColor, flashDuration);
    forall f ensures Get(info, f) == Get(InfoFor(note, d, flashList), f) {
      InfoForField(note, d, flashList, f);
    }
    InfoExt(info, InfoFor(note, d, flashList));
  }

  /** The whole state table after loading. */
  function LoadAll(es: seq<Option<DataState>>, info: string -> PopupInfo): (r: seq<Option<DataState>>)
    ensures |r| == |es|
  {
    if es == [] then [] else LoadAll(es[..|es| - 1], info) + [Loaded(es[|es| - 1], |es| - 1, info)]
  }

  /** Every entry of the loaded table is its entry loaded on its own: the
      loader treats each state independently of the others. */
  lemma {:induction false} LoadAllAt(es: seq<Option<DataState>>, info: string -> PopupInfo, i: nat)
    requires i < |es|
    ensures LoadAll(es, info)[i] == Loaded(es[i], i, info)
  {
    var init := es[..|es| - 1];
    assert LoadAll(es, info) == LoadAll(init, info) + [Loaded(es[|es| - 1], |es| - 1, info)];
    if i < |es| - 1 {
      LoadAllAt(init, info, i);
      assert init[i] == es[i];
    }
  }

  /** The loader's step for entry `i`. */
  method LoadOne(entry: Option<DataState>, i: nat, d: PopupInfo, flashList: string -> seq<int>) returns (e: Option<DataState>)
    requires i >= 1
    ensures e == Loaded(entry, i, InfoOf(d, flashList))
  {
    e := entry;
    if entry.Some? {
      var info := ReadPopupInfo(entry.value.note, d, flashList);
      e := Some(entry.value.(popupInfo := Some(info)));
    }
  }

  lemma LoadAllSnoc(es: seq<Option<DataState>>, i: nat, info: string -> PopupInfo, e: Option<DataState>)
    requires i < |es| && e == Loaded(es[i], i, info)
    ensures LoadAll(es[..i + 1], info) == LoadAll(es[..i], info) + [e]
  {
    assert es[..i + 1][..i] == es[..i];
  }

  /** Loading entry `i` of a table loaded up to `i` extends the loaded part. */
  lemma LoadStep(es: seq<Option<DataState>>, i: nat, info: string -> PopupInfo,
                 cur: seq<Option<DataState>>, e: Option<DataState>)
    requires i < |es| && cur == LoadAll(es[..i], info) + es[i..]
    requires e == Loaded(cur[i], i, info)
    ensures cur[i := e] == LoadAll(es[..i + 1], info) + es[i + 1..]
  {
    var done := LoadAll(es[..i], info);
    assert cur[i] == es[i];
    LoadAllSnoc(es, i, info, e);
    var next := cur[i := e];
    assert next == done + [e] + es[i + 1..] by {
      forall k | 0 <= k < |next|
        ensures next[k] == (done + [e] + es[i + 1..])[k]
      {
        if k > i {
          assert cur[k] == es[i..][k - i] == es[k];
        }
      }
    }
  }

  lemma LoadAllFirst(es: seq<Option<DataState>>, info: string -> PopupInfo)
    requires |es| >= 1
    ensures LoadAll(es[..1], info) == [es[0]]
  {
    LoadAllSnoc(es, 0, info, es[0]);
  }

  /** `loadNotetags`: every state from index 1 on gets its popup
      information in place. */
  method LoadNotetags(states: array<Option<DataState>>, d: PopupInfo, flashList: string -> seq<int>)
    modifies states
    ensures states[..] == LoadAll(old(states[..]), InfoOf(d, flashList))
  {
    ghost var es := states[..];
    var i := 1;
    if states.Length > 0 {
      LoadAllFirst(es, InfoOf(d, flashList));
    }
    while i < states.Length
      invariant states.Length == 0 || 1 <= i <= states.Length
      invariant states.Length > 0 ==> states[..] == LoadAll(es[..i], InfoOf(d, flashList)) + es[i..]
    {
      var e := LoadOne(states[i], i, d, flashList);
      LoadStep(es, i, InfoOf(d, flashList), states[..], e);
      states[i] := e;
      i := i + 1;
    }
    assert es[..states.Length] == es;
  }
}
