/** Cleaning a player name as it is typed: every character that may not
    appear in a name is removed, everything else is kept in order. */
module NameFilter {

  /** The characters removed. The engine keeps a string's characters in an
      array ending in a NUL terminator, and the membership test searches that
      whole array, so NUL counts as invalid as well. */
  function InvalidSet(invalidChars: string): set<char> {
    set c | c in invalidChars + ['\0']
  }

  /** The name with every character of `invalid` removed. */
  function Strip(s: string, invalid: set<char>): string
    decreases |s|
  {
    if |s| == 0 then []
    else (if s[0] in invalid then [] else [s[0]]) + Strip(s[1..], invalid)
  }

  /** `a` is `b` with some characters deleted, the rest in order. */
  ghost predicate IsSubsequence(a: string, b: string)
    decreases |b|
  {
    if |b| == 0 then |a| == 0
    else (|a| > 0 && a[0] == b[0] && IsSubsequence(a[1..], b[1..])) || IsSubsequence(a, b[1..])
  }

  /** The removal loop of the name box's change handler: it walks the text
      from the last character down to the first and removes each invalid one
      in place. */
  method StripInvalid(text: string, invalidChars: string) returns (adjusted: string)
    ensures adjusted == Strip(text, InvalidSet(invalidChars))
  {
    var invalid := InvalidSet(invalidChars);
    adjusted := text;
    var i := |text| - 1;
    PartlyStrippedEnds(text, invalid);
    while i >= 0
      invariant -1 <= i < |text|
      invariant adjusted == PartlyStripped(text, i, invalid)
      decreases i
    {
      StripStep(text, i, invalid);
      if adjusted[i] in invalid {
        adjusted := adjusted[..i] + adjusted[i + 1..];
      }
      i := i - 1;
    }
  }

  /** The text while the removal loop is at position i: untouched up to and
      including i, stripped after it. */
  ghost function PartlyStripped(text: string, i: int, invalid: set<char>): string
    requires -1 <= i < |text|
  {
    text[..i + 1] + Strip(text[i + 1..], invalid)
  }

  /** The loop starts from the whole text and ends with the whole text stripped. */
  lemma PartlyStrippedEnds(text: string, invalid: set<char>)
    ensures PartlyStripped(text, |text| - 1, invalid) == text
    ensures PartlyStripped(text, -1, invalid) == Strip(text, invalid)
  {
    assert text[..|text|] == text && text[0..] == text;
  }

  /** One round of the removal loop: removing character i when it is invalid,
      and keeping it otherwise, moves the loop one place down. */
  lemma StripStep(text: string, i: nat, invalid: set<char>)
    requires i < |text|
    ensures var a := PartlyStripped(text, i, invalid);
      && |a| > i && a[i] == text[i]
      && (text[i] in invalid ==> a[..i] + a[i + 1..] == PartlyStripped(text, i - 1, invalid))
      && (text[i] !in invalid ==> a == PartlyStripped(text, i - 1, invalid))
  {
    var rest := Strip(text[i + 1..], invalid);
    var a := text[..i + 1] + rest;
    StripAt(text, i, invalid);
    assert a[..i] == text[..i] && a[i + 1..] == rest;
    assert text[..i + 1] == text[..i] + [text[i]];
  }

  /** Stripping a suffix handles its first character, then the rest. */
  lemma StripAt(text: string, i: nat, invalid: set<char>)
    requires i < |text|
    ensures Strip(text[i..], invalid)
         == (if text[i] in invalid then [] else [text[i]]) + Strip(text[i + 1..], invalid)
  {
    assert text[i..][1..] == text[i + 1..];
  }

  /** No invalid character survives, and every valid one is kept as often as
      it occurs. */
  lemma {:induction false} StripContents(s: string, invalid: set<char>)
    ensures forall c :: c in invalid ==> multiset(Strip(s, invalid))[c] == 0
    ensures forall c :: c !in invalid ==> multiset(Strip(s, invalid))[c] == multiset(s)[c]
    decreases |s|
  {
    if |s| > 0 {
      StripContents(s[1..], invalid);
      assert s == [s[0]] + s[1..];
    }
  }

  /** The result keeps the order of the input. */
  lemma {:induction false} StripIsSubsequence(s: string, invalid: set<char>)
    ensures IsSubsequence(Strip(s, invalid), s)
    decreases |s|
  {
    if |s| > 0 {
      StripIsSubsequence(s[1..], invalid);
      var r := Strip(s, invalid);
      if s[0] !in invalid {
        assert r[0] == s[0] && r[1..] == Strip(s[1..], invalid);
      } else {
        assert r == Strip(s[1..], invalid);
      }
    }
  }

  /** A name without invalid characters is left alone ... */
  lemma {:induction false} StripClean(s: string, invalid: set<char>)
    requires forall k :: 0 <= k < |s| ==> s[k] !in invalid
    ensures Strip(s, invalid) == s
    decreases |s|
  {
    if |s| > 0 {
      StripClean(s[1..], invalid);
      assert s == [s[0]] + s[1..];
    }
  }

  /** ... so stripping twice is stripping once: when the handler writes the
      cleaned name back into the box, the change notification that follows
      rewrites nothing. */
  lemma StripIdempotent(s: string, invalid: set<char>)
    ensures Strip(Strip(s, invalid), invalid) == Strip(s, invalid)
  {
    var r := Strip(s, invalid);
    StripContents(s, invalid);
    forall k | 0 <= k < |r|
      ensures r[k] !in invalid
    {
      assert r[k] in multiset(r);
    }
    StripClean(r, invalid);
  }

  /** The box is rewritten exactly when the typed text held an invalid character. */
  lemma StripChanges(s: string, invalid: set<char>)
    ensures Strip(s, invalid) != s <==> exists k :: 0 <= k < |s| && s[k] in invalid
  {
    if exists k :: 0 <= k < |s| && s[k] in invalid {
      var k :| 0 <= k < |s| && s[k] in invalid;
      StripContents(s, invalid);
      assert s[k] in multiset(s);
    } else {
      StripClean(s, invalid);
    }
  }
}
