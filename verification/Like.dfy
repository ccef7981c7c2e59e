/**
 * ILIKE as the name filters use it: the needle between two percent signs, with the
 * needle's own wildcards and escapes left as they are.
 */
module Like {

  /** Case folding of the ASCII letters, character by character. */
  function Fold(c: char): char {
    if 'A' <= c <= 'Z' then c - 'A' + 'a' else c
  }

  /** Whether `text` matches `pattern`: % any text, _ any character, backslash takes the next one literally. */
  predicate ILike(pattern: string, text: string)
    decreases |pattern| + |text|
  {
    if pattern == "" then text == ""
    else if pattern[0] == '%' then
      ILike(pattern[1..], text) || (text != "" && ILike(pattern, text[1..]))
    else if pattern[0] == '_' then
      text != "" && ILike(pattern[1..], text[1..])
    else if pattern[0] == '\\' then
      |pattern| >= 2 && text != "" && Fold(pattern[1]) == Fold(text[0]) && ILike(pattern[2..], text[1..])
    else
      text != "" && Fold(pattern[0]) == Fold(text[0]) && ILike(pattern[1..], text[1..])
  }

  /** The pattern the filters build. */
  function Wrap(needle: string): string {
    "%" + needle + "%"
  }

  /** `text` begins with `needle`, up to case. */
  predicate StartsWith(text: string, needle: string) {
    needle == "" || (text != "" && Fold(text[0]) == Fold(needle[0]) && StartsWith(text[1..], needle[1..]))
  }

  /** `text` contains `needle`, up to case. */
  predicate Contains(text: string, needle: string) {
    StartsWith(text, needle) || (text != "" && Contains(text[1..], needle))
  }

  predicate Special(c: char) {
    c == '%' || c == '_' || c == '\\'
  }

  predicate Plain(needle: string) {
    forall c | c in needle :: !Special(c)
  }

  lemma {:induction false} PercentMatchesAll(text: string)
    ensures ILike("%", text)
  {
    assert "%"[1..] == "";
    if text == "" {
    } else {
      PercentMatchesAll(text[1..]);
    }
  }

  lemma {:induction false} PlainPrefix(needle: string, text: string)
    requires Plain(needle)
    ensures ILike(needle + "%", text) <==> StartsWith(text, needle)
  {
    if needle == "" {
      assert needle + "%" == "%";
      PercentMatchesAll(text);
    } else {
      assert needle[0] in needle;
      assert forall c | c in needle[1..] :: c in needle;
      assert (needle + "%")[1..] == needle[1..] + "%";
      if text != "" {
        PlainPrefix(needle[1..], text[1..]);
      }
    }
  }

  /** A needle without wildcards and escapes is found exactly where it is contained, up to case. */
  lemma {:induction false} PlainIsContains(needle: string, text: string)
    requires Plain(needle)
    ensures ILike(Wrap(needle), text) <==> Contains(text, needle)
  {
    assert Wrap(needle)[1..] == needle + "%";
    PlainPrefix(needle, text);
    if text == "" {
    } else {
      PlainIsContains(needle, text[1..]);
    }
  }

  // ---- needles with wildcards or escapes ------------------------------------------

  /** A text that the wrapped needle matches although it does not contain a special needle. */
  function Witness(needle: string): string {
    if needle == "" then ""
    else if needle[0] == '%' then Witness(needle[1..])
    else if needle[0] == '_' then "x" + Witness(needle[1..])
    else if needle[0] == '\\' then
      if |needle| == 1 then "%" else [needle[1]] + Witness(needle[2..])
    else [needle[0]] + Witness(needle[1..])
  }

  lemma {:induction false} WitnessMatchesPrefix(needle: string)
    ensures ILike(needle + "%", Witness(needle))
    decreases |needle|
  {
    if needle == "" {
      assert needle + "%" == "%";
      PercentMatchesAll("");
    } else {
      var p := needle + "%";
      assert p[1..] == needle[1..] + "%";
      if needle[0] == '\\' {
        if |needle| == 1 {
          assert p == "\\%" && p[2..] == "";
          assert Witness(needle)[1..] == "";
        } else {
          assert p[2..] == needle[2..] + "%";
          WitnessMatchesPrefix(needle[2..]);
          assert Witness(needle)[1..] == Witness(needle[2..]);
        }
      } else {
        WitnessMatchesPrefix(needle[1..]);
        assert needle[0] != '%' ==> Witness(needle)[1..] == Witness(needle[1..]);
      }
    }
  }

  lemma WitnessMatches(needle: string)
    ensures ILike(Wrap(needle), Witness(needle))
  {
    WitnessMatchesPrefix(needle);
    assert Wrap(needle)[1..] == needle + "%";
  }

  lemma {:induction false} StartsWithLonger(text: string, needle: string)
    requires StartsWith(text, needle)
    ensures |needle| <= |text|
  {
    if needle == "" {
    } else {
      StartsWithLonger(text[1..], needle[1..]);
    }
  }

  lemma {:induction false} ContainsLonger(text: string, needle: string)
    requires Contains(text, needle)
    ensures |needle| <= |text|
    ensures |needle| == |text| ==> StartsWith(text, needle)
  {
    if StartsWith(text, needle) {
      StartsWithLonger(text, needle);
    } else {
      ContainsLonger(text[1..], needle);
    }
  }

  lemma {:induction false} WitnessNotLonger(needle: string)
    ensures |Witness(needle)| <= |needle|
    decreases |needle|
  {
    if needle == "" {
    } else {
      WitnessNotLonger(needle[1..]);
      if needle[0] == '\\' && |needle| > 1 {
        WitnessNotLonger(needle[2..]);
      }
    }
  }

  /** As long as the needle, the witness begins with it only if it has no special character. */
  lemma {:induction false} WitnessBeginsOnlyPlain(needle: string)
    requires |Witness(needle)| == |needle| && StartsWith(Witness(needle), needle)
    ensures Plain(needle)
    decreases |needle|
  {
    if needle == "" {
    } else {
      WitnessNotLonger(needle[1..]);
      if needle[0] == '\\' && |needle| > 1 {
        WitnessNotLonger(needle[2..]);
      }
      assert !Special(needle[0]);
      assert Witness(needle)[1..] == Witness(needle[1..]);
      WitnessBeginsOnlyPlain(needle[1..]);
      assert needle == [needle[0]] + needle[1..];
    }
  }

  // ---- containment, position by position --------------------------------------------

  /** The same character, or an ASCII letter and its other case, 32 code points away. */
  predicate SameLetter(c: char, d: char) {
    || c == d
    || ('A' <= c <= 'Z' && d as int == c as int + 32)
    || ('A' <= d <= 'Z' && c as int == d as int + 32)
  }

  lemma FoldIsSameLetter(c: char, d: char)
    ensures Fold(c) == Fold(d) <==> SameLetter(c, d)
  {
  }

  predicate FoundAt(text: string, needle: string, k: nat) {
    k + |needle| <= |text| && forall i | 0 <= i < |needle| :: SameLetter(text[k + i], needle[i])
  }

  /** The needle occurs in the text, up to the case of letters. */
  ghost predicate Found(text: string, needle: string) {
    exists k :: FoundAt(text, needle, k)
  }

  lemma {:induction false} StartsWithIsFoundAt(text: string, needle: string)
    ensures StartsWith(text, needle) <==> FoundAt(text, needle, 0)
  {
    if needle == "" || text == "" {
    } else {
      StartsWithIsFoundAt(text[1..], needle[1..]);
      FoldIsSameLetter(text[0], needle[0]);
      assert forall i | 1 <= i < |needle| :: needle[1..][i - 1] == needle[i];
      assert forall i | 1 <= i < |text| :: text[1..][i - 1] == text[i];
      hide SameLetter, Fold;
      if FoundAt(text, needle, 0) {
        assert SameLetter(text[0 + 0], needle[0]);
        forall i | 0 <= i < |needle| - 1 ensures SameLetter(text[1..][0 + i], needle[1..][i]) {
          assert SameLetter(text[0 + (i + 1)], needle[i + 1]);
        }
      }
      if FoundAt(text[1..], needle[1..], 0) && SameLetter(text[0], needle[0]) {
        forall i | 0 <= i < |needle| ensures SameLetter(text[0 + i], needle[i]) {
          assert i > 0 ==> SameLetter(text[1..][0 + (i - 1)], needle[1..][i - 1]);
        }
      }
    }
  }

  lemma FoundLater(text: string, needle: string, k: nat)
    requires text != ""
    ensures FoundAt(text[1..], needle, k) <==> FoundAt(text, needle, k + 1)
  {
    hide SameLetter;
    assert forall i | 1 <= i < |text| :: text[1..][i - 1] == text[i];
    if FoundAt(text, needle, k + 1) {
      assert forall i | 0 <= i < |needle| :: SameLetter(text[k + 1 + i], needle[i]);
    }
    if FoundAt(text[1..], needle, k) {
      forall i | 0 <= i < |needle| ensures SameLetter(text[k + 1 + i], needle[i]) {
        assert SameLetter(text[1..][k + i], needle[i]);
      }
    }
  }

  lemma NothingInEmpty(needle: string)
    ensures Found("", needle) ==> FoundAt("", needle, 0)
  {
  }

  lemma {:induction false} ContainsIsFound(text: string, needle: string)
    ensures Contains(text, needle) <==> Found(text, needle)
  {
    StartsWithIsFoundAt(text, needle);
    hide FoundAt, StartsWith;
    if text == "" {
      NothingInEmpty(needle);
    } else {
      ContainsIsFound(text[1..], needle);
      if k: nat :| FoundAt(text[1..], needle, k) {
        FoundLater(text, needle, k);
      }
      if k: nat :| FoundAt(text, needle, k) {
        if k > 0 {
          FoundLater(text, needle, k - 1);
        }
      }
    }
  }

  /** A needle without wildcards and escapes is found exactly where it occurs, up to case. */
  lemma PlainIsFound(needle: string, text: string)
    requires Plain(needle)
    ensures ILike("%" + needle + "%", text) <==> Found(text, needle)
  {
    PlainIsContains(needle, text);
    ContainsIsFound(text, needle);
    hide ILike, Contains, Found;
  }

  /** The filter finds exactly the texts in which the needle occurs. */
  ghost predicate FindsSubstrings(needle: string) {
    forall text :: ILike("%" + needle + "%", text) <==> Found(text, needle)
  }

  /**
   * The documented case-insensitive substring search is what the filter does for every
   * text if and only if the needle has no percent sign, underscore or backslash.
   */
  lemma SubstringIffPlain(needle: string)
    ensures FindsSubstrings(needle) <==> Plain(needle)
  {
    if Plain(needle) {
      forall text ensures ILike("%" + needle + "%", text) <==> Found(text, needle) {
        PlainIsFound(needle, text);
      }
    } else {
      var w := Witness(needle);
      WitnessMatches(needle);
      WitnessNotLonger(needle);
      if Contains(w, needle) {
        ContainsLonger(w, needle);
        WitnessBeginsOnlyPlain(needle);
      }
      ContainsIsFound(w, needle);
      assert ILike("%" + needle + "%", w) && !Found(w, needle);
    }
  }

  // ---- what a pattern matches, part by part --------------------------------------------

  /** No escape at the end is left without the character it escapes. */
  predicate Complete(pattern: string) {
    if pattern == "" then true
    else if pattern[0] == '\\' then |pattern| >= 2 && Complete(pattern[2..])
    else Complete(pattern[1..])
  }

  ghost predicate SplitsAt(p: string, q: string, text: string, k: nat) {
    k <= |text| && ILike(p, text[..k]) && ILike(q, text[k..])
  }

  ghost predicate Splits(p: string, q: string, text: string) {
    exists k: nat :: SplitsAt(p, q, text, k)
  }

  lemma SplitsNothing(q: string, text: string)
    ensures ILike(q, text) <==> Splits("", q, text)
  {
    assert text[..0] == "" && text[0..] == text;
    if ILike(q, text) {
      assert SplitsAt("", q, text, 0);
    }
    if k: nat :| SplitsAt("", q, text, k) {
      assert text[..k] == "" && k == 0;
    }
  }

  /** How long the first element is: an escape has two characters. */
  function Width(p: string): nat
    requires p != ""
  {
    if p[0] == '\\' then 2 else 1
  }

  /** The first element, when it is no percent sign, takes this character. */
  predicate FirstTakes(p: string, c: char)
    requires p != "" && Width(p) <= |p|
  {
    p[0] == '_' || Fold(p[Width(p) - 1]) == Fold(c)
  }

  lemma FirstElement(p: string, text: string)
    requires p != "" && p[0] != '%' && Width(p) <= |p|
    ensures ILike(p, text) <==> text != "" && FirstTakes(p, text[0]) && ILike(p[Width(p)..], text[1..])
  {
  }

  lemma SplitsLaterAt(p: string, q: string, text: string, k: nat)
    requires p != "" && p[0] != '%' && Width(p) <= |p| && text != ""
    ensures !SplitsAt(p, q, text, 0)
    ensures SplitsAt(p, q, text, k + 1) <==> FirstTakes(p, text[0]) && SplitsAt(p[Width(p)..], q, text[1..], k)
  {
    FirstElement(p, text[..0]);
    if k < |text| {
      FirstElement(p, text[..k + 1]);
      assert text[..k + 1][1..] == text[1..][..k] && text[k + 1..] == text[1..][k..];
    }
    hide ILike, FirstTakes, Width;
  }

  /** An element other than a percent sign takes one character, and the rest splits. */
  lemma SplitsLater(p: string, q: string, text: string)
    requires p != "" && p[0] != '%' && Width(p) <= |p| && text != ""
    ensures Splits(p, q, text) <==> FirstTakes(p, text[0]) && Splits(p[Width(p)..], q, text[1..])
  {
    hide SplitsAt, FirstTakes;
    SplitsLaterAt(p, q, text, 0);
    if k: nat :| SplitsAt(p, q, text, k) {
      SplitsLaterAt(p, q, text, k - 1);
    }
    if k: nat :| SplitsAt(p[Width(p)..], q, text[1..], k) {
      SplitsLaterAt(p, q, text, k);
    }
  }

  lemma PercentElement(p: string, text: string)
    requires p != "" && p[0] == '%'
    ensures ILike(p, text) <==> ILike(p[1..], text) || (text != "" && ILike(p, text[1..]))
  {
  }

  lemma SplitsPercentAt(p: string, q: string, text: string, k: nat)
    requires p != "" && p[0] == '%' && k <= |text|
    ensures SplitsAt(p, q, text, k)
      <==> SplitsAt(p[1..], q, text, k) || (k > 0 && SplitsAt(p, q, text[1..], k - 1))
  {
    PercentElement(p, text[..k]);
    if k > 0 {
      assert text[..k][1..] == text[1..][..k - 1] && text[k..] == text[1..][k - 1..];
    }
    hide ILike;
  }

  lemma SplitsPercent(p: string, q: string, text: string)
    requires p != "" && p[0] == '%'
    ensures Splits(p, q, text) <==> Splits(p[1..], q, text) || (text != "" && Splits(p, q, text[1..]))
  {
    hide ILike;
    if k: nat :| SplitsAt(p, q, text, k) {
      SplitsPercentAt(p, q, text, k);
    }
    if k: nat :| SplitsAt(p[1..], q, text, k) {
      SplitsPercentAt(p, q, text, k);
    }
    if text != "" {
      if k: nat :| SplitsAt(p, q, text[1..], k) {
        SplitsPercentAt(p, q, text, k + 1);
        assert SplitsAt(p, q, text[1..], k + 1 - 1);
      }
    }
  }

  lemma NoSplitOfEmpty(p: string, q: string)
    requires !ILike(p, "")
    ensures !Splits(p, q, "")
  {
  }

  /** A text matches two patterns in a row if and only if it splits into a match of each. */
  lemma {:induction false} MatchesInParts(p: string, q: string, text: string)
    requires Complete(p)
    ensures ILike(p + q, text) <==> Splits(p, q, text)
    decreases |p| + |text|
  {
    var both := p + q;
    if p == "" {
      assert both == q;
      SplitsNothing(q, text);
    } else if p[0] == '%' {
      assert both[1..] == p[1..] + q;
      MatchesInParts(p[1..], q, text);
      if text != "" {
        MatchesInParts(p, q, text[1..]);
      }
      SplitsPercent(p, q, text);
    } else {
      var n := Width(p);
      assert both[n..] == p[n..] + q && Width(both) == n && both[n - 1] == p[n - 1] && both[0] == p[0];
      FirstElement(p, text);
      FirstElement(both, text);
      if text == "" {
        NoSplitOfEmpty(p, q);
      } else {
        MatchesInParts(p[n..], q, text[1..]);
        SplitsLater(p, q, text);
        assert FirstTakes(both, text[0]) == FirstTakes(p, text[0]);
      }
    }
  }

  /** The patterns of one element. */
  lemma OneElement(c: char, text: string)
    ensures ILike("", text) <==> text == ""
    ensures ILike("%", text) && !ILike("\\", text)
    ensures ILike("_", text) <==> |text| == 1
    ensures ILike(['\\', c], text) <==> |text| == 1 && SameLetter(c, text[0])
    ensures !Special(c) ==> (ILike([c], text) <==> |text| == 1 && SameLetter(c, text[0]))
  {
    PercentMatchesAll(text);
    assert "_"[1..] == "" && [c][1..] == "" && ['\\', c][2..] == "";
    if text != "" {
      FoldIsSameLetter(c, text[0]);
    }
  }
}
