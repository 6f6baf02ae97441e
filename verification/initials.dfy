/** The avatar-fallback initials of a display name. The client carries two
    identical copies of this helper (one in the gallery, one in the account
    menu); both are this one function. */
module Initials {
  import opened Types

  const Space: char := ' '

  /** The fallback shown for a missing or empty name. */
  const Unknown: string := "U"

  /** ASCII upper-casing of one code unit; everything else is left alone. */
  function UpperChar(c: char): (u: char)
    ensures 'a' <= c <= 'z' ==> 'A' <= u <= 'Z' && u as int == c as int - 32
    ensures !('a' <= c <= 'z') ==> u == c
  {
    if 'a' <= c <= 'z' then (c as int - 'a' as int + 'A' as int) as char else c
  }

  /** `String.prototype.toUpperCase`, restricted to ASCII. */
  function ToUpper(s: string): (u: string)
    ensures |u| == |s|
    ensures forall i :: 0 <= i < |s| ==> u[i] == UpperChar(s[i])
  {
    if |s| == 0 then [] else [UpperChar(s[0])] + ToUpper(s[1..])
  }

  /** `String.prototype.slice(0, n)`. */
  function Take(s: string, n: nat): (t: string)
    ensures |t| <= n && |t| <= |s|
    ensures t == s[..|t|]
    ensures |s| <= n ==> t == s
  {
    if |s| <= n then s else s[..n]
  }

  /** `String.prototype.split(sep)` with a one-character separator: the
      pieces between separators, empty pieces included, at least one piece. */
  function Split(s: string, sep: char): (parts: seq<string>)
    ensures |parts| >= 1
    ensures forall k :: 0 <= k < |parts| ==> sep !in parts[k]
  {
    if |s| == 0 then [""]
    else
      var rest := Split(s[1..], sep);
      if s[0] == sep then [""] + rest
      else [[s[0]] + rest[0]] + rest[1..]
  }

  /** `Array.prototype.join(sep)`. */
  function Join(parts: seq<string>, sep: char): string {
    if |parts| == 0 then ""
    else if |parts| == 1 then parts[0]
    else parts[0] + [sep] + Join(parts[1..], sep)
  }

  /** `parts.map(n => n[0]).join('')`: the first character of every piece;
      an empty piece yields `undefined`, which joins as the empty string. */
  function FirstChars(parts: seq<string>): string {
    if |parts| == 0 then ""
    else (if |parts[0]| > 0 then [parts[0][0]] else "") + FirstChars(parts[1..])
  }

  /** The getInitials helper: `"U"` for a falsy name, otherwise the first
      characters of the space-separated pieces, upper-cased, cut to two. */
  function GetInitials(name: Option<string>): (r: string)
    ensures |r| <= 2
    ensures !Truthy(name) ==> r == Unknown
  {
    if !Truthy(name) then Unknown
    else Take(ToUpper(FirstChars(Split(name.value, Space))), 2)
  }

  // ---------------------------------------------------------------------
  // Independent reference: a character scan for word starts.

  /** The characters of `s` that begin a word: not a space, and either the
      first character (when `afterSpace` holds) or right after a space. */
  function Starts(s: string, afterSpace: bool): (w: string)
    ensures |w| <= |s|
  {
    if |s| == 0 then ""
    else (if s[0] != Space && afterSpace then [s[0]] else "") + Starts(s[1..], s[0] == Space)
  }

  /** The first characters of the words of `s`, in order. */
  function WordStarts(s: string): string {
    Starts(s, true)
  }

  /** Splitting a string and joining the pieces back gives the string. */
  lemma {:induction false} JoinSplit(s: string, sep: char)
    ensures Join(Split(s, sep), sep) == s
  {
    if |s| > 0 {
      var rest := Split(s[1..], sep);
      JoinSplit(s[1..], sep);
      if s[0] == sep {
        assert Split(s, sep) == [""] + rest;
        assert ([""] + rest)[1..] == rest;
      } else {
        var parts := Split(s, sep);
        assert parts == [[s[0]] + rest[0]] + rest[1..];
        if |rest| == 1 {
          assert Join(parts, sep) == [s[0]] + rest[0];
        } else {
          assert parts[1..] == rest[1..];
          assert Join(rest, sep) == rest[0] + [sep] + Join(rest[1..], sep);
        }
      }
    }
  }

  /** The first characters of the split pieces are exactly the word starts;
      the pieces after the first correspond to a scan that starts mid-word. */
  lemma {:induction false} FirstCharsOfSplit(s: string)
    ensures FirstChars(Split(s, Space)) == Starts(s, true)
    ensures FirstChars(Split(s, Space)[1..]) == Starts(s, false)
  {
    if |s| > 0 {
      var rest := Split(s[1..], Space);
      FirstCharsOfSplit(s[1..]);
      if s[0] == Space {
        assert Split(s, Space) == [""] + rest;
        assert ([""] + rest)[1..] == rest;
      } else {
        var parts := Split(s, Space);
        assert parts == [[s[0]] + rest[0]] + rest[1..];
        assert parts[1..] == rest[1..];
      }
    }
  }

  /** For a non-empty name the initials are the upper-cased word starts,
      cut to two characters. */
  lemma InitialsAreWordStarts(s: string)
    requires s != ""
    ensures GetInitials(Some(s)) == Take(ToUpper(WordStarts(s)), 2)
  {
    FirstCharsOfSplit(s);
  }

  lemma {:induction false} StartsOfSpaces(s: string, b: bool)
    requires forall i :: 0 <= i < |s| ==> s[i] == Space
    ensures Starts(s, b) == ""
  {
    if |s| > 0 {
      StartsOfSpaces(s[1..], true);
    }
  }

  /** A name of spaces only is truthy but has no word, so its initials are
      empty rather than the `"U"` fallback. */
  lemma SpacesGiveNoInitials(s: string)
    requires s != ""
    requires forall i :: 0 <= i < |s| ==> s[i] == Space
    ensures GetInitials(Some(s)) == ""
  {
    InitialsAreWordStarts(s);
    StartsOfSpaces(s, true);
  }

  lemma {:induction false} StartsMidWord(s: string)
    requires Space !in s
    ensures Starts(s, false) == ""
  {
    if |s| > 0 {
      StartsMidWord(s[1..]);
    }
  }

  /** A single word gives exactly one initial: its upper-cased first letter. */
  lemma SingleWord(w: string)
    requires w != "" && Space !in w
    ensures GetInitials(Some(w)) == [UpperChar(w[0])]
  {
    InitialsAreWordStarts(w);
    StartsMidWord(w[1..]);
  }

  lemma {:induction false} StartsAppend(p: string, q: string, b: bool)
    ensures Starts(p + q, b) == Starts(p, b) + Starts(q, if |p| == 0 then b else p[|p| - 1] == Space)
  {
    if |p| == 0 {
      assert p + q == q;
    } else {
      assert (p + q)[1..] == p[1..] + q;
      StartsAppend(p[1..], q, p[0] == Space);
    }
  }

  lemma {:induction false} ToUpperAppend(a: string, b: string)
    ensures ToUpper(a + b) == ToUpper(a) + ToUpper(b)
  {
    if |a| > 0 {
      assert (a + b)[1..] == a[1..] + b;
      ToUpperAppend(a[1..], b);
    }
  }

  /** Two space-separated words give the first letter of each. */
  lemma TwoWords(v: string, w: string)
    requires v != "" && Space !in v
    requires w != "" && Space !in w
    ensures WordStarts(v + [Space] + w) == [v[0], w[0]]
  {
    StartsAppend(v + [Space], w, true);
    StartsAppend(v, [Space], true);
    assert v == [v[0]] + v[1..];
    StartsAppend([v[0]], v[1..], true);
    StartsMidWord(v[1..]);
    assert w == [w[0]] + w[1..];
    StartsAppend([w[0]], w[1..], true);
    StartsMidWord(w[1..]);
  }

  /** A worked example: `"ada lovelace"` gives `"AL"`. */
  lemma AdaLovelace()
    ensures GetInitials(Some("ada lovelace")) == "AL"
  {
    var ada, lovelace := "ada", "lovelace";
    assert "ada lovelace" == ada + [Space] + lovelace;
    InitialsAreWordStarts(ada + [Space] + lovelace);
    TwoWords(ada, lovelace);
    assert ToUpper(['a', 'l']) == "AL";
  }

  // ---------------------------------------------------------------------
  // A single-pass computation of the same initials.

  /** One scan step: the prefix's word starts grow by the next character
      exactly when it is a word start. */
  lemma ScanStep(s: string, i: nat)
    requires i < |s|
    ensures ToUpper(WordStarts(s[..i + 1])) ==
      ToUpper(WordStarts(s[..i]))
      + (if s[i] != Space && (i == 0 || s[i - 1] == Space) then [UpperChar(s[i])] else [])
  {
    assert s[..i + 1] == s[..i] + [s[i]];
    StartsAppend(s[..i], [s[i]], true);
    var afterSpace := i == 0 || s[i - 1] == Space;
    assert afterSpace == (if |s[..i]| == 0 then true else s[..i][|s[..i]| - 1] == Space);
    ToUpperAppend(WordStarts(s[..i]), Starts([s[i]], afterSpace));
  }

  /** The upper-cased word starts of a prefix are a prefix of those of the
      whole string. */
  lemma ScanPrefix(s: string, i: nat)
    requires i <= |s|
    ensures exists rest :: ToUpper(WordStarts(s)) == ToUpper(WordStarts(s[..i])) + rest
  {
    assert s == s[..i] + s[i..];
    StartsAppend(s[..i], s[i..], true);
    var b := if i == 0 then true else s[..i][i - 1] == Space;
    ToUpperAppend(WordStarts(s[..i]), Starts(s[i..], b));
    var rest := ToUpper(Starts(s[i..], b));
    assert ToUpper(WordStarts(s)) == ToUpper(WordStarts(s[..i])) + rest;
  }

  /** Scans the name once and stops as soon as two initials are collected;
      agrees with `GetInitials` on every input. */
  method ScanInitials(name: Option<string>) returns (r: string)
    ensures r == GetInitials(name)
  {
    if !Truthy(name) {
      return Unknown;
    }
    var s := name.value;
    r := "";
    var i := 0;
    var afterSpace := true;
    while i < |s| && |r| < 2
      invariant 0 <= i <= |s|
      invariant afterSpace == (i == 0 || s[i - 1] == Space)
      invariant r == ToUpper(WordStarts(s[..i]))
      invariant |r| <= 2
    {
      ScanStep(s, i);
      if s[i] != Space && afterSpace {
        r := r + [UpperChar(s[i])];
      }
      afterSpace := s[i] == Space;
      i := i + 1;
    }
    InitialsAreWordStarts(s);
    ScanPrefix(s, i);
    if i == |s| {
      assert s[..i] == s;
    }
  }
}
