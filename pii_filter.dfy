/**
 * The credit-card redaction filter (`PIIFilter.filter_credit_cards`).
 *
 * Each of the seven card patterns is modelled by what its regular expression
 * accepts rather than by a regex engine: a `Shape` predicate on the matched
 * text, the match lengths in the order backtracking tries them, and the two
 * word boundaries `\b` around the match. `Substitute` is `re.sub` for one
 * pattern: it scans left to right, replaces each leftmost non-overlapping
 * match by the marker and resumes after it. `\d`, `\w` and `\s` are taken
 * over ASCII.
 */
module PiiFilter {
  import opened Wrappers

  const Marker: string := "[CREDIT-CARD-REDACTED]"

  /** The patterns of `CREDIT_CARD_PATTERNS`, one constructor per regex. */
  datatype CardPattern =
    | Visa               // \b4[0-9]{12}(?:[0-9]{3})?\b
    | MasterCard         // \b5[1-5][0-9]{14}\b
    | MasterCard2Series  // \b(?:222[1-9]|22[3-9][0-9]|2[3-6][0-9]{2}|27[01][0-9]|2720)[0-9]{12}\b
    | Amex               // \b3[47][0-9]{13}\b
    | Discover6011       // \b6011[0-9]{12}\b
    | Discover65         // \b65[0-9]{14}\b
    | Grouped            // \b\d{4}[\s\-]?\d{4}[\s\-]?\d{4}[\s\-]?\d{4}\b

  /** The patterns in the order the filter applies them. */
  const Patterns: seq<CardPattern> :=
    [Visa, MasterCard, MasterCard2Series, Amex, Discover6011, Discover65, Grouped]

  predicate IsDigit(c: char) {
    '0' <= c <= '9'
  }

  predicate IsWordChar(c: char) {
    IsDigit(c) || ('a' <= c <= 'z') || ('A' <= c <= 'Z') || c == '_'
  }

  /** `[\s\-]`: ASCII whitespace or a hyphen. */
  predicate IsSeparator(c: char) {
    c == ' ' || c == '\t' || c == '\n' || c == '\r' || c == '\U{000B}' || c == '\U{000C}' || c == '-'
  }

  predicate AllDigits(w: string) {
    forall k :: 0 <= k < |w| ==> IsDigit(w[k])
  }

  /** The first four characters of the 2-series MasterCard alternation. */
  predicate MasterCard2Prefix(a: char, b: char, c: char, d: char) {
    || (a == '2' && b == '2' && c == '2' && '1' <= d <= '9')
    || (a == '2' && b == '2' && '3' <= c <= '9' && IsDigit(d))
    || (a == '2' && '3' <= b <= '6' && IsDigit(c) && IsDigit(d))
    || (a == '2' && b == '7' && (c == '0' || c == '1') && IsDigit(d))
    || (a == '2' && b == '7' && c == '2' && d == '0')
  }

  /** `groups` runs of four digits, each pair separated by at most one separator. */
  predicate FourDigitGroups(w: string, groups: nat)
    decreases groups
  {
    if groups == 0 then false
    else if groups == 1 then |w| == 4 && AllDigits(w)
    else
      && |w| >= 4 && AllDigits(w[..4])
      && (|| FourDigitGroups(w[4..], groups - 1)
          || (|w| > 4 && IsSeparator(w[4]) && FourDigitGroups(w[5..], groups - 1)))
  }

  /** The text `w` is exactly what pattern `p` matches between its two `\b`. */
  predicate Shape(p: CardPattern, w: string) {
    match p
    case Visa => (|w| == 16 || |w| == 13) && AllDigits(w) && w[0] == '4'
    case MasterCard => |w| == 16 && AllDigits(w) && w[0] == '5' && '1' <= w[1] <= '5'
    case MasterCard2Series => |w| == 16 && AllDigits(w) && MasterCard2Prefix(w[0], w[1], w[2], w[3])
    case Amex => |w| == 15 && AllDigits(w) && w[0] == '3' && (w[1] == '4' || w[1] == '7')
    case Discover6011 => |w| == 16 && AllDigits(w) && w[..4] == "6011"
    case Discover65 => |w| == 16 && AllDigits(w) && w[0] == '6' && w[1] == '5'
    case Grouped => FourDigitGroups(w, 4)
  }

  /**
   * The match lengths in the order the regex engine tries them. For Visa the
   * optional group is greedy, so 16 comes before 13. For Grouped at most one
   * length has the shape, because a separator is never a digit, so the order
   * does not matter.
   */
  function Candidates(p: CardPattern): seq<nat> {
    match p
    case Visa => [16, 13]
    case Amex => [15]
    case Grouped => [19, 18, 17, 16]
    case _ => [16]
  }

  /** `\b` right after position `j` of `s`, given that `s[j-1]` is a digit. */
  predicate EndsWordAt(s: string, j: nat) {
    j == |s| || (j < |s| && !IsWordChar(s[j]))
  }

  function FirstMatch(p: CardPattern, s: string, cands: seq<nat>): (r: Option<nat>)
    ensures r.Some? ==> 0 < r.value <= |s| && Shape(p, s[..r.value]) && EndsWordAt(s, r.value)
  {
    if cands == [] then None
    else if cands[0] <= |s| && Shape(p, s[..cands[0]]) && EndsWordAt(s, cands[0]) then Some(cands[0])
    else FirstMatch(p, s, cands[1..])
  }

  /**
   * The length of the match of `p` at the start of `s`, if any, assuming the
   * left `\b` holds (the caller checks it).
   */
  function MatchLen(p: CardPattern, s: string): (r: Option<nat>)
    ensures r.Some? ==> 0 < r.value <= |s| && Shape(p, s[..r.value]) && EndsWordAt(s, r.value)
  {
    FirstMatch(p, s, Candidates(p))
  }

  /**
   * `re.sub(p, Marker, s)` for the suffix `s` of the input; `afterWord` says
   * whether the character before `s` is a word character, which rules out
   * the left `\b`.
   */
  function Substitute(p: CardPattern, afterWord: bool, s: string): string
    decreases |s|
  {
    if s == [] then []
    else
      var m := MatchLen(p, s);
      if !afterWord && m.Some? then Marker + Substitute(p, true, s[m.value..])
      else [s[0]] + Substitute(p, IsWordChar(s[0]), s[1..])
  }

  /** One pass of the filter loop: `re.sub(pattern, Marker, text)`. */
  function ReSub(p: CardPattern, text: string): string {
    Substitute(p, false, text)
  }

  /** The passes `ps` applied in order, first to last. */
  function ApplyAll(ps: seq<CardPattern>, text: string): string
    decreases |ps|
  {
    if ps == [] then text else ReSub(ps[|ps| - 1], ApplyAll(ps[..|ps| - 1], text))
  }

  /** What `filter_credit_cards` returns. */
  function Redact(text: string): string {
    if text == [] then text else ApplyAll(Patterns, text)
  }

  /** `filter_credit_cards`: the empty text is returned as is, otherwise each pattern is substituted in turn. */
  method FilterCreditCards(text: string) returns (filtered: string)
    ensures filtered == Redact(text)
    ensures text == [] ==> filtered == []
  {
    if text == [] {
      return text;
    }
    filtered := text;
    for i := 0 to |Patterns|
      invariant filtered == ApplyAll(Patterns[..i], text)
    {
      assert Patterns[..i + 1][..i] == Patterns[..i];
      filtered := ReSub(Patterns[i], filtered);
    }
    assert Patterns[..|Patterns|] == Patterns;
  }

  // ---------------------------------------------------------------------
  // Locality of a match
  // ---------------------------------------------------------------------

  /** A character that stops every match of `p` and satisfies the right `\b`. */
  predicate Blocks(p: CardPattern, c: char) {
    !IsWordChar(c) && (p == Grouped ==> !IsSeparator(c))
  }

  lemma {:induction false} GroupsChars(w: string, groups: nat, k: nat)
    requires FourDigitGroups(w, groups) && k < |w|
    ensures IsDigit(w[k]) || IsSeparator(w[k])
    ensures IsDigit(w[0]) && IsDigit(w[|w| - 1])
    decreases groups
  {
    if groups > 1 {
      if FourDigitGroups(w[4..], groups - 1) {
        GroupsChars(w[4..], groups - 1, if k < 4 then 0 else k - 4);
      } else {
        GroupsChars(w[5..], groups - 1, if k < 5 then 0 else k - 5);
      }
    }
  }

  /** Every character a match covers is a digit or, for Grouped only, a separator. */
  lemma ShapeChars(p: CardPattern, w: string, k: nat)
    requires Shape(p, w) && k < |w|
    ensures IsDigit(w[k]) || (p == Grouped && IsSeparator(w[k]))
    ensures |w| > 0 && IsDigit(w[0]) && IsDigit(w[|w| - 1])
  {
    if p == Grouped {
      GroupsChars(w, 4, k);
    }
  }

  lemma {:induction false} FirstMatchLocal(p: CardPattern, x: string, y: string, cands: seq<nat>)
    requires y != [] && Blocks(p, y[0])
    ensures FirstMatch(p, x + y, cands) == FirstMatch(p, x, cands)
    decreases |cands|
  {
    if cands != [] {
      var n := cands[0];
      var s := x + y;
      if n <= |x| {
        assert s[..n] == x[..n];
        assert n == |x| ==> EndsWordAt(s, n) && EndsWordAt(x, n);
        assert n < |x| ==> s[n] == x[n];
      } else if n <= |s| && Shape(p, s[..n]) {
        // the match would have to cover the blocking character y[0]
        ShapeChars(p, s[..n], |x|);
      }
      FirstMatchLocal(p, x, y, cands[1..]);
    }
  }

  /** A match never looks past a blocking character. */
  lemma MatchLenLocal(p: CardPattern, x: string, y: string)
    requires y != [] && Blocks(p, y[0])
    ensures MatchLen(p, x + y) == MatchLen(p, x)
  {
    FirstMatchLocal(p, x, y, Candidates(p));
  }

  lemma MatchStartsWithDigit(p: CardPattern, s: string)
    requires MatchLen(p, s).Some?
    ensures IsDigit(s[0]) && IsDigit(s[MatchLen(p, s).value - 1])
  {
    var n := MatchLen(p, s).value;
    ShapeChars(p, s[..n], 0);
  }

  /** Whether the text before `s` ends in a word character is irrelevant when `s` starts with a non-digit. */
  lemma SubstituteNonDigitStart(p: CardPattern, a1: bool, a2: bool, s: string)
    requires s != [] && !IsDigit(s[0])
    ensures Substitute(p, a1, s) == Substitute(p, a2, s) == [s[0]] + Substitute(p, IsWordChar(s[0]), s[1..])
  {
    var m := MatchLen(p, s);
    if m.Some? {
      MatchStartsWithDigit(p, s);
    }
  }

  /**
   * Substitution splits at a blocking character: what precedes it is
   * rewritten as if the text ended there, and what follows as if it began
   * there.
   */
  lemma {:induction false} SubstituteSplit(p: CardPattern, aw: bool, x: string, y: string)
    requires y != [] && Blocks(p, y[0])
    ensures Substitute(p, aw, x + y) == Substitute(p, aw, x) + Substitute(p, false, y)
    decreases |x|
  {
    if x == [] {
      assert x + y == y;
      SubstituteNonDigitStart(p, aw, false, y);
    } else {
      var s := x + y;
      MatchLenLocal(p, x, y);
      var m := MatchLen(p, x);
      if !aw && m.Some? {
        var n := m.value;
        assert s[n..] == x[n..] + y;
        SubstituteSplit(p, true, x[n..], y);
        calc {
          Substitute(p, aw, s);
          Marker + Substitute(p, true, x[n..] + y);
          { ConcatAssociative(Marker, Substitute(p, true, x[n..]), Substitute(p, false, y)); }
          Marker + Substitute(p, true, x[n..]) + Substitute(p, false, y);
          Substitute(p, aw, x) + Substitute(p, false, y);
        }
      } else {
        assert s[1..] == x[1..] + y;
        assert s[0] == x[0];
        SubstituteSplit(p, IsWordChar(x[0]), x[1..], y);
        calc {
          Substitute(p, aw, s);
          [x[0]] + Substitute(p, IsWordChar(x[0]), x[1..] + y);
          { ConcatAssociative([x[0]], Substitute(p, IsWordChar(x[0]), x[1..]), Substitute(p, false, y)); }
          [x[0]] + Substitute(p, IsWordChar(x[0]), x[1..]) + Substitute(p, false, y);
          Substitute(p, aw, x) + Substitute(p, false, y);
        }
      }
    }
  }

  /** Text without digits passes through a substitution unchanged. */
  lemma {:induction false} NoDigitsUnchanged(p: CardPattern, aw: bool, s: string)
    requires forall k :: 0 <= k < |s| ==> !IsDigit(s[k])
    ensures Substitute(p, aw, s) == s
    decreases |s|
  {
    if s != [] {
      SubstituteNonDigitStart(p, aw, aw, s);
      NoDigitsUnchanged(p, IsWordChar(s[0]), s[1..]);
    }
  }

  /** Passes never alter a text without digits (every pattern needs one). */
  lemma {:induction false} DigitFreePassesKept(ps: seq<CardPattern>, text: string)
    requires forall k :: 0 <= k < |text| ==> !IsDigit(text[k])
    ensures ApplyAll(ps, text) == text
    decreases |ps|
  {
    if ps != [] {
      DigitFreePassesKept(ps[..|ps| - 1], text);
      NoDigitsUnchanged(ps[|ps| - 1], false, text);
    }
  }

  /** The filter returns a text without digits unchanged. */
  lemma DigitFreeTextKept(text: string)
    requires forall k :: 0 <= k < |text| ==> !IsDigit(text[k])
    ensures Redact(text) == text
  {
    DigitFreePassesKept(Patterns, text);
  }

  lemma MarkerFacts()
    ensures |Marker| == 22 && Marker[0] == '[' && Marker[21] == ']'
    ensures forall k :: 0 <= k < |Marker| ==> !IsDigit(Marker[k])
  {
  }

  lemma SubstituteEmpty(p: CardPattern, aw: bool)
    ensures Substitute(p, aw, []) == []
  {
  }

  /**
   * Text without digits that ends in a non-word character is copied, and
   * what follows it is rewritten as a fresh text.
   */
  lemma {:induction false} NonDigitsThenFresh(p: CardPattern, aw: bool, w: string, b: string)
    requires w != [] && (forall k :: 0 <= k < |w| ==> !IsDigit(w[k])) && !IsWordChar(w[|w| - 1])
    ensures Substitute(p, aw, w + b) == w + Substitute(p, false, b)
    decreases |w|
  {
    var s := w + b;
    assert s[0] == w[0];
    SubstituteNonDigitStart(p, aw, aw, s);
    if |w| == 1 {
      assert s[1..] == b;
      assert w == [w[0]];
    } else {
      assert s[1..] == w[1..] + b;
      NonDigitsThenFresh(p, IsWordChar(w[0]), w[1..], b);
      ConcatAssociative([w[0]], w[1..], Substitute(p, false, b));
      assert [w[0]] + w[1..] == w;
    }
  }

  /** A substitution passes over a marker and rewrites what follows it as a fresh text. */
  lemma SubstituteFromMarker(p: CardPattern, b: string)
    ensures Substitute(p, false, Marker + b) == Marker + Substitute(p, false, b)
  {
    MarkerFacts();
    NonDigitsThenFresh(p, false, Marker, b);
  }

  /** A substitution rewrites the text on either side of a marker independently and keeps the marker. */
  lemma SubstituteAroundMarker(p: CardPattern, aw: bool, a: string, b: string)
    ensures Substitute(p, aw, a + Marker + b) == Substitute(p, aw, a) + Marker + Substitute(p, false, b)
  {
    MarkerFacts();
    assert a + Marker + b == a + (Marker + b);
    SubstituteSplit(p, aw, a, Marker + b);
    SubstituteFromMarker(p, b);
  }

  /** Every later pass leaves a marker in place and works on each side of it separately. */
  lemma {:induction false} ApplyAllAroundMarker(ps: seq<CardPattern>, a: string, b: string)
    ensures ApplyAll(ps, a + Marker + b) == ApplyAll(ps, a) + Marker + ApplyAll(ps, b)
    decreases |ps|
  {
    if ps != [] {
      var init := ps[..|ps| - 1];
      ApplyAllAroundMarker(init, a, b);
      SubstituteAroundMarker(ps[|ps| - 1], false, ApplyAll(init, a), ApplyAll(init, b));
    }
  }

  lemma {:induction false} ApplyAllEmpty(ps: seq<CardPattern>)
    ensures ApplyAll(ps, []) == []
    decreases |ps|
  {
    if ps != [] {
      ApplyAllEmpty(ps[..|ps| - 1]);
    }
  }

  // ---------------------------------------------------------------------
  // A framed card number
  // ---------------------------------------------------------------------

  /** `pre` is empty or ends in a non-word character. */
  predicate OpenBefore(pre: string) {
    pre == [] || !IsWordChar(pre[|pre| - 1])
  }

  /** `post` is empty or starts with a non-word character. */
  predicate OpenAfter(post: string) {
    post == [] || !IsWordChar(post[0])
  }

  /** A word run survives the substitutions positioned after a word character. */
  lemma {:induction false} WordRunSurvives(p: CardPattern, w: string, post: string)
    requires forall k :: 0 <= k < |w| ==> IsWordChar(w[k])
    ensures Substitute(p, true, w + post) == w + Substitute(p, true, post)
    decreases |w|
  {
    if w == [] {
      assert w + post == post;
    } else {
      var s := w + post;
      assert s[0] == w[0] && IsWordChar(w[0]);
      assert s[1..] == w[1..] + post;
      WordRunSurvives(p, w[1..], post);
      calc {
        Substitute(p, true, s);
        [w[0]] + Substitute(p, true, w[1..] + post);
        [w[0]] + (w[1..] + Substitute(p, true, post));
        { ConcatAssociative([w[0]], w[1..], Substitute(p, true, post)); assert w == [w[0]] + w[1..]; }
        w + Substitute(p, true, post);
      }
    }
  }

  /** After a match, the rest of the text is rewritten as if it began there. */
  lemma RestAfterNumber(p: CardPattern, post: string)
    requires OpenAfter(post)
    ensures Substitute(p, true, post) == ReSub(p, post)
  {
    if post != [] {
      SubstituteNonDigitStart(p, true, false, post);
    }
  }

  lemma NumberMatched(p: CardPattern, d: string, post: string)
    requires OpenAfter(post) && d != [] && MatchLen(p, d + post) == Some(|d|)
    ensures Substitute(p, false, d + post) == Marker + ReSub(p, post)
  {
    var t := d + post;
    assert t[|d|..] == post;
    RestAfterNumber(p, post);
  }

  lemma NumberUnmatched(p: CardPattern, d: string, post: string)
    requires OpenAfter(post) && d != [] && AllDigits(d) && MatchLen(p, d + post).None?
    ensures Substitute(p, false, d + post) == d + ReSub(p, post)
  {
    var t := d + post;
    assert t[0] == d[0] && t[1..] == d[1..] + post;
    WordRunSurvives(p, d[1..], post);
    RestAfterNumber(p, post);
    calc {
      Substitute(p, false, t);
      [d[0]] + Substitute(p, true, d[1..] + post);
      [d[0]] + (d[1..] + Substitute(p, true, post));
      { ConcatAssociative([d[0]], d[1..], Substitute(p, true, post)); assert [d[0]] + d[1..] == d; }
      d + ReSub(p, post);
    }
  }

  /** A digit-only pass splits right before a number that starts at a word boundary. */
  lemma SplitBeforeNumber(p: CardPattern, pre: string, d: string, post: string)
    requires p != Grouped && OpenBefore(pre) && d != []
    ensures ReSub(p, pre + d + post) == ReSub(p, pre) + Substitute(p, false, d + post)
  {
    var t := d + post;
    assert pre + d + post == pre + t;
    if pre == [] {
      assert pre + t == t;
    } else {
      SplitAfterNonWord(p, pre, t);
    }
  }

  /** A digit-only pass that matches the framed number replaces exactly it. */
  lemma PassReplacesNumber(p: CardPattern, pre: string, d: string, post: string)
    requires p != Grouped && OpenBefore(pre) && OpenAfter(post) && d != []
    requires MatchLen(p, d + post) == Some(|d|)
    ensures ReSub(p, pre + d + post) == ReSub(p, pre) + Marker + ReSub(p, post)
  {
    SplitBeforeNumber(p, pre, d, post);
    NumberMatched(p, d, post);
  }

  /** A digit-only pass that does not match at the framed number leaves it in place. */
  lemma PassKeepsNumber(p: CardPattern, pre: string, d: string, post: string)
    requires p != Grouped && OpenBefore(pre) && OpenAfter(post) && d != [] && AllDigits(d)
    requires MatchLen(p, d + post).None?
    ensures ReSub(p, pre + d + post) == ReSub(p, pre) + d + ReSub(p, post)
  {
    SplitBeforeNumber(p, pre, d, post);
    NumberUnmatched(p, d, post);
  }

  /** A non-word character at a boundary is copied and the rest is rewritten as a fresh text. */
  lemma NonWordPassesThrough(p: CardPattern, c: char, t: string)
    requires !IsWordChar(c)
    ensures Substitute(p, false, [c] + t) == [c] + Substitute(p, false, t)
  {
    var ct := [c] + t;
    assert ct[0] == c && ct[1..] == t;
    SubstituteNonDigitStart(p, false, false, ct);
  }

  /** For a digit-only pattern a text ending in a non-word character splits there. */
  lemma SplitAfterNonWord(p: CardPattern, pre: string, t: string)
    requires p != Grouped && pre != [] && !IsWordChar(pre[|pre| - 1]) && t != []
    ensures Substitute(p, false, pre + t) == Substitute(p, false, pre) + Substitute(p, false, t)
  {
    var c := pre[|pre| - 1];
    var x := pre[..|pre| - 1];
    assert Blocks(p, c);
    assert pre == x + [c];
    assert pre + t == x + ([c] + t);
    SubstituteSplit(p, false, x, [c] + t);
    SubstituteSplit(p, false, x, [c]);
    NonWordPassesThrough(p, c, t);
    NonWordPassesThrough(p, c, []);
    assert [c] + [] == [c];
    ConcatAssociative(Substitute(p, false, x), [c], Substitute(p, false, t));
  }

  /** A digit-only pass keeps the character that frames the number on the left. */
  lemma PassKeepsOpenBefore(p: CardPattern, pre: string)
    requires p != Grouped && OpenBefore(pre)
    ensures OpenBefore(ReSub(p, pre))
  {
    if pre != [] {
      var c := pre[|pre| - 1];
      var x := pre[..|pre| - 1];
      assert pre == x + [c];
      SubstituteSplit(p, false, x, [c]);
      SubstituteNonDigitStart(p, false, false, [c]);
      assert Substitute(p, false, [c]) == [c];
    }
  }

  /** Every pass keeps the character that frames the number on the right. */
  lemma PassKeepsOpenAfter(p: CardPattern, post: string)
    requires OpenAfter(post)
    ensures OpenAfter(ReSub(p, post))
  {
    if post != [] {
      SubstituteNonDigitStart(p, false, false, post);
    }
  }

  lemma {:induction false} ApplyAllCompose(a: seq<CardPattern>, b: seq<CardPattern>, text: string)
    ensures ApplyAll(a + b, text) == ApplyAll(b, ApplyAll(a, text))
    decreases |b|
  {
    if b == [] {
      assert a + b == a;
    } else {
      var b' := b[..|b| - 1];
      assert (a + b)[..|a + b| - 1] == a + b';
      assert (a + b)[|a + b| - 1] == b[|b| - 1];
      ApplyAllCompose(a, b', text);
    }
  }

  /**
   * The first `k` passes leave a framed digit run alone when none of their
   * patterns accepts it.
   */
  lemma {:induction false} EarlierPassesKeepNumber(k: nat, pre: string, d: string, post: string)
    requires k <= 6 && OpenBefore(pre) && OpenAfter(post) && d != [] && AllDigits(d)
    requires forall j :: 0 <= j < k ==> MatchLen(Patterns[j], d).None?
    ensures ApplyAll(Patterns[..k], pre + d + post)
      == ApplyAll(Patterns[..k], pre) + d + ApplyAll(Patterns[..k], post)
    ensures OpenBefore(ApplyAll(Patterns[..k], pre)) && OpenAfter(ApplyAll(Patterns[..k], post))
    decreases k
  {
    if k > 0 {
      var ps := Patterns[..k];
      assert ps[..k - 1] == Patterns[..k - 1];
      EarlierPassesKeepNumber(k - 1, pre, d, post);
      var pre' := ApplyAll(Patterns[..k - 1], pre);
      var post' := ApplyAll(Patterns[..k - 1], post);
      var p := Patterns[k - 1];
      if post' != [] {
        MatchLenLocal(p, d, post');
      } else {
        assert d + post' == d;
      }
      PassKeepsNumber(p, pre', d, post');
      PassKeepsOpenBefore(p, pre');
      PassKeepsOpenAfter(p, post');
    }
  }

  /** Through the `k`-th pass, the run is kept by the earlier passes and replaced by the `k`-th. */
  lemma PassesThroughMatch(k: nat, pre: string, d: string, post: string)
    requires k < 6 && OpenBefore(pre) && OpenAfter(post) && d != [] && AllDigits(d)
    requires MatchLen(Patterns[k], d) == Some(|d|)
    requires forall j :: 0 <= j < k ==> MatchLen(Patterns[j], d).None?
    ensures ApplyAll(Patterns[..k + 1], pre + d + post)
         == ApplyAll(Patterns[..k + 1], pre) + Marker + ApplyAll(Patterns[..k + 1], post)
  {
    EarlierPassesKeepNumber(k, pre, d, post);
    var pre' := ApplyAll(Patterns[..k], pre);
    var post' := ApplyAll(Patterns[..k], post);
    var p := Patterns[k];
    if post' != [] {
      MatchLenLocal(p, d, post');
    } else {
      assert d + post' == d;
    }
    PassReplacesNumber(p, pre', d, post');
    var done := Patterns[..k + 1];
    assert done[..k] == Patterns[..k] && done[k] == p;
  }

  /**
   * A digit run framed by non-word characters that the `k`-th pattern
   * accepts whole, and no earlier pattern accepts, is replaced by the marker
   * and nothing of it is left; the text around it is filtered as if the run
   * were not there.
   */
  lemma CardNumberRedacted(k: nat, pre: string, d: string, post: string)
    requires k < 6 && OpenBefore(pre) && OpenAfter(post) && d != [] && AllDigits(d)
    requires MatchLen(Patterns[k], d) == Some(|d|)
    requires forall j :: 0 <= j < k ==> MatchLen(Patterns[j], d).None?
    ensures Redact(pre + d + post) == Redact(pre) + Marker + Redact(post)
  {
    PassesThroughMatch(k, pre, d, post);
    var done := Patterns[..k + 1];
    var rest := Patterns[k + 1..];
    assert Patterns == done + rest;
    var pre2 := ApplyAll(done, pre);
    var post2 := ApplyAll(done, post);
    ApplyAllAroundMarker(rest, pre2, post2);
    ApplyAllCompose(done, rest, pre + d + post);
    ApplyAllCompose(done, rest, pre);
    ApplyAllCompose(done, rest, post);
    if pre == [] {
      ApplyAllEmpty(Patterns);
    }
    if post == [] {
      ApplyAllEmpty(Patterns);
    }
  }

  /** A 13- or 16-digit Visa number (leading 4) does not survive filtering. */
  lemma VisaNumberRedacted(pre: string, d: string, post: string)
    requires OpenBefore(pre) && OpenAfter(post)
    requires (|d| == 16 || |d| == 13) && AllDigits(d) && d[0] == '4'
    ensures Redact(pre + d + post) == Redact(pre) + Marker + Redact(post)
  {
    assert d[..|d|] == d;
    if |d| == 13 {
      assert Candidates(Visa)[1..] == [13];
      assert FirstMatch(Visa, d, [13]) == Some(13);
    }
    CardNumberRedacted(0, pre, d, post);
  }

  /** A MasterCard number with a leading 51 to 55 does not survive filtering. */
  lemma MasterCardNumberRedacted(pre: string, d: string, post: string)
    requires OpenBefore(pre) && OpenAfter(post)
    requires |d| == 16 && AllDigits(d) && d[0] == '5' && '1' <= d[1] <= '5'
    ensures Redact(pre + d + post) == Redact(pre) + Marker + Redact(post)
  {
    assert d[..16] == d;
    CardNumberRedacted(1, pre, d, post);
  }

  /** A 2-series MasterCard number (leading 2221 to 2720) does not survive filtering. */
  lemma MasterCard2SeriesNumberRedacted(pre: string, d: string, post: string)
    requires OpenBefore(pre) && OpenAfter(post)
    requires |d| == 16 && AllDigits(d) && MasterCard2Prefix(d[0], d[1], d[2], d[3])
    ensures Redact(pre + d + post) == Redact(pre) + Marker + Redact(post)
  {
    assert d[..16] == d;
    CardNumberRedacted(2, pre, d, post);
  }

  /** A 15-digit American Express number (leading 34 or 37) does not survive filtering. */
  lemma AmexNumberRedacted(pre: string, d: string, post: string)
    requires OpenBefore(pre) && OpenAfter(post)
    requires |d| == 15 && AllDigits(d) && d[0] == '3' && (d[1] == '4' || d[1] == '7')
    ensures Redact(pre + d + post) == Redact(pre) + Marker + Redact(post)
  {
    assert d[..15] == d;
    CardNumberRedacted(3, pre, d, post);
  }

  /** A Discover number with a leading 6011 does not survive filtering. */
  lemma Discover6011NumberRedacted(pre: string, d: string, post: string)
    requires OpenBefore(pre) && OpenAfter(post)
    requires |d| == 16 && AllDigits(d) && d[..4] == "6011"
    ensures Redact(pre + d + post) == Redact(pre) + Marker + Redact(post)
  {
    assert d[..16] == d;
    assert d[0] == '6' && d[1] == '0';
    CardNumberRedacted(4, pre, d, post);
  }

  /** A Discover number with a leading 65 does not survive filtering. */
  lemma Discover65NumberRedacted(pre: string, d: string, post: string)
    requires OpenBefore(pre) && OpenAfter(post)
    requires |d| == 16 && AllDigits(d) && d[0] == '6' && d[1] == '5'
    ensures Redact(pre + d + post) == Redact(pre) + Marker + Redact(post)
  {
    assert d[..16] == d;
    assert d[..4] != "6011" by { assert d[..4][1] == '5'; }
    CardNumberRedacted(5, pre, d, post);
  }

  /** The 2-series alternation accepts exactly the four-digit prefixes 2221 to 2720. */
  lemma MasterCard2PrefixRange(a: char, b: char, c: char, d: char)
    requires IsDigit(a) && IsDigit(b) && IsDigit(c) && IsDigit(d)
    ensures MasterCard2Prefix(a, b, c, d) <==>
      2221 <= 1000 * (a as int - '0' as int) + 100 * (b as int - '0' as int) + 10 * (c as int - '0' as int) + (d as int - '0' as int) <= 2720
  {
  }
}
