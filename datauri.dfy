/**
  The embedded-image URI recogniser `BASE64_IMG_URL_PATTERN`:
  `^data:image\/((png)|(gif)|(jpg)|(jpeg)|(bmp));base64` with the `i` flag,
  a case-insensitive prefix test on RFC 2397 `data:` URLs.

  Matching follows JavaScript's regular expressions without the `u` flag:
  both characters are canonicalised by upper-casing, and a non-ASCII
  character never canonicalises to an ASCII one, so for this all-ASCII
  pattern only the letters A-Z and a-z fold.
 */
module DataUri {

  const Prefix: string := "data:image/"

  /** The alternatives of the pattern, in the order the regex tries them. */
  const Formats: seq<string> := ["png", "gif", "jpg", "jpeg", "bmp"]

  const Suffix: string := ";base64"

  /** ASCII upper case. It agrees with the engine's canonicalisation under
      the `i` flag without `u` on every comparison with an ASCII character,
      which is the only kind this pattern makes (see
      `AgreesWithEngineOnAscii`); the engine also upper-cases non-ASCII
      letters, which no comparison here can observe. */
  function Canonical(c: char): char
  {
    if 'a' <= c <= 'z' then (c as int - 32) as char else c
  }

  /** ASCII lower case, the reference notion of "ignoring case". */
  function Lower(c: char): char
  {
    if 'A' <= c <= 'Z' then (c as int + 32) as char else c
  }

  function LowerAll(s: string): string
  {
    seq(|s|, i requires 0 <= i < |s| => Lower(s[i]))
  }

  /** Canonicalising by upper case and by lower case identify the same pairs. */
  lemma CanonicalIsCaseFolding(x: char, y: char)
    ensures Canonical(x) == Canonical(y) <==> Lower(x) == Lower(y)
  {
  }

  /** Any canonicalisation that upper-cases ASCII as `Canonical` does and
      keeps non-ASCII characters outside ASCII (as the engine's does) makes
      the same decisions as `Canonical` when one side is ASCII. */
  lemma AgreesWithEngineOnAscii(engine: char -> char, x: char, p: char)
    requires forall c: char :: c as int < 128 ==> engine(c) == Canonical(c)
    requires forall c: char :: c as int >= 128 ==> engine(c) as int >= 128
    requires p as int < 128
    ensures engine(x) == engine(p) <==> Canonical(x) == Canonical(p)
  {
  }

  /** Whether `s` begins with `p`, character by character as the regex engine
      compares them. */
  function StartsWithIgnoringCase(s: string, p: string): bool
  {
    if p == [] then true
    else if s == [] then false
    else Canonical(s[0]) == Canonical(p[0]) && StartsWithIgnoringCase(s[1..], p[1..])
  }

  /** Whether `s` begins with one of `alternatives` followed by `;base64`,
      trying the alternatives in order. */
  function MatchesOneOf(s: string, alternatives: seq<string>): bool
  {
    if alternatives == [] then false
    else StartsWithIgnoringCase(s, alternatives[0] + Suffix) || MatchesOneOf(s, alternatives[1..])
  }

  /** `BASE64_IMG_URL_PATTERN.test(s)`. */
  predicate IsEmbeddedImageUri(s: string)
  {
    |Prefix| <= |s| && StartsWithIgnoringCase(s, Prefix) && MatchesOneOf(s[|Prefix|..], Formats)
  }

  /** The character-wise test is "the first |p| characters of `s` are those of
      `p`, ignoring ASCII case". */
  lemma {:induction false} StartsWithMeansLowerPrefix(s: string, p: string)
    ensures StartsWithIgnoringCase(s, p) <==> |p| <= |s| && LowerAll(s[..|p|]) == LowerAll(p)
  {
    if p != [] && s != [] {
      StartsWithMeansLowerPrefix(s[1..], p[1..]);
      CanonicalIsCaseFolding(s[0], p[0]);
      if |p| <= |s| {
        var x, y := LowerAll(s[..|p|]), LowerAll(p);
        assert x == [Lower(s[0])] + LowerAll(s[1..][..|p| - 1]);
        assert y == [Lower(p[0])] + LowerAll(p[1..]);
        assert x == y <==> x[0] == y[0] && x[1..] == y[1..];
      }
    }
  }

  /** The alternation accepts exactly when some alternative matches. */
  lemma {:induction false} MatchesOneOfMeansSome(s: string, alternatives: seq<string>)
    ensures MatchesOneOf(s, alternatives)
        <==> exists k :: 0 <= k < |alternatives| && StartsWithIgnoringCase(s, alternatives[k] + Suffix)
  {
    if alternatives != [] {
      MatchesOneOfMeansSome(s, alternatives[1..]);
      if MatchesOneOf(s, alternatives[1..]) {
        var k :| 0 <= k < |alternatives[1..]| && StartsWithIgnoringCase(s, alternatives[1..][k] + Suffix);
        assert alternatives[k + 1] == alternatives[1..][k];
      }
      if exists k :: 0 <= k < |alternatives| && StartsWithIgnoringCase(s, alternatives[k] + Suffix) {
        var k :| 0 <= k < |alternatives| && StartsWithIgnoringCase(s, alternatives[k] + Suffix);
        if k > 0 {
          assert alternatives[1..][k - 1] == alternatives[k];
        }
      }
    }
  }

  /** Matching `a` and then `b` after it is matching `a + b`. */
  lemma {:induction false} StartsWithConcat(s: string, a: string, b: string)
    requires |a| <= |s|
    ensures StartsWithIgnoringCase(s, a + b)
        <==> StartsWithIgnoringCase(s, a) && StartsWithIgnoringCase(s[|a|..], b)
  {
    if a != [] {
      assert (a + b)[1..] == a[1..] + b;
      assert s[|a|..] == s[1..][|a| - 1..];
      StartsWithConcat(s[1..], a[1..], b);
    } else {
      assert a + b == b;
    }
  }

  /** The accepted prefixes, in lower case. */
  function AcceptedPrefix(format: string): string
  {
    Prefix + format + Suffix
  }

  /** The reference description: `s` starts, ignoring ASCII case, with
      `data:image/<format>;base64` for one of the five formats. */
  ghost predicate HasImagePrefix(s: string)
  {
    exists f :: f in Formats && |AcceptedPrefix(f)| <= |s| && LowerAll(s[..|AcceptedPrefix(f)|]) == AcceptedPrefix(f)
  }

  /** Every accepted prefix is already in lower case. */
  lemma AcceptedPrefixIsLower(f: string)
    requires f in Formats
    ensures LowerAll(AcceptedPrefix(f)) == AcceptedPrefix(f)
  {
  }

  /** Matching `Prefix` and then `format;base64` after it is matching the
      whole accepted prefix. */
  lemma SplitMatch(s: string, f: string)
    requires LowerAll(AcceptedPrefix(f)) == AcceptedPrefix(f)
    ensures (|Prefix| <= |s| && StartsWithIgnoringCase(s, Prefix) && StartsWithIgnoringCase(s[|Prefix|..], f + Suffix))
        <==> (|AcceptedPrefix(f)| <= |s| && LowerAll(s[..|AcceptedPrefix(f)|]) == AcceptedPrefix(f))
  {
    assert AcceptedPrefix(f) == Prefix + (f + Suffix);
    StartsWithMeansLowerPrefix(s, AcceptedPrefix(f));
    if |Prefix| <= |s| {
      StartsWithConcat(s, Prefix, f + Suffix);
    }
  }

  /** The recogniser accepts exactly the strings with an accepted prefix. */
  lemma RecogniserMeetsReference(s: string)
    ensures IsEmbeddedImageUri(s) <==> HasImagePrefix(s)
  {
    StartsWithMeansLowerPrefix(s, Prefix);
    if IsEmbeddedImageUri(s) {
      MatchesOneOfMeansSome(s[|Prefix|..], Formats);
      var k :| 0 <= k < |Formats| && StartsWithIgnoringCase(s[|Prefix|..], Formats[k] + Suffix);
      AcceptedPrefixIsLower(Formats[k]);
      SplitMatch(s, Formats[k]);
    }
    if HasImagePrefix(s) {
      var f :| f in Formats && |AcceptedPrefix(f)| <= |s| && LowerAll(s[..|AcceptedPrefix(f)|]) == AcceptedPrefix(f);
      AcceptedPrefixIsLower(f);
      SplitMatch(s, f);
      var k :| 0 <= k < |Formats| && Formats[k] == f;
      MatchesOneOfMeansSome(s[|Prefix|..], Formats);
    }
  }

  /** One character that differs, ignoring case, within the pattern's length
      is enough to reject. */
  lemma MismatchRejects(s: string, p: string, i: nat)
    requires i < |p| && i < |s| && Lower(s[i]) != Lower(p[i])
    ensures !StartsWithIgnoringCase(s, p)
  {
    StartsWithMeansLowerPrefix(s, p);
    if |p| <= |s| {
      assert LowerAll(s[..|p|])[i] != LowerAll(p)[i];
    }
  }

  /** A string whose prefix and format part read, ignoring ASCII case, as
      `data:image/` and as the k-th format with `;base64` is accepted. */
  lemma AcceptedVia(s: string, k: nat)
    requires k < |Formats| && |Prefix| + |Formats[k] + Suffix| <= |s|
    requires LowerAll(s[..|Prefix|]) == Prefix
    requires LowerAll(s[|Prefix|..][..|Formats[k] + Suffix|]) == Formats[k] + Suffix
    ensures IsEmbeddedImageUri(s)
  {
    StartsWithMeansLowerPrefix(s, Prefix);
    StartsWithMeansLowerPrefix(s[|Prefix|..], Formats[k] + Suffix);
    MatchesOneOfMeansSome(s[|Prefix|..], Formats);
  }

  /** A PNG data URL is accepted; the bytes after `;base64` do not matter. */
  lemma AcceptsPng()
    ensures IsEmbeddedImageUri("data:image/png;base64,iVBORw0KGgo=")
  {
    var s := "data:image/png;base64,iVBORw0KGgo=";
    var p := s[..11];
    assert p == Prefix;
    assert forall i :: 0 <= i < 11 ==> LowerAll(p)[i] == Prefix[i];
    var t := s[11..][..10];
    assert t == "png;base64";
    assert forall i :: 0 <= i < 10 ==> LowerAll(t)[i] == (Formats[0] + Suffix)[i];
    AcceptedVia(s, 0);
  }

  /** Case does not matter in the type, and the alternation reaches `jpeg`
      past `jpg`. */
  lemma AcceptsUpperCaseJpeg()
    ensures IsEmbeddedImageUri("data:image/JPEG;base64,/9j/")
  {
    var s := "data:image/JPEG;base64,/9j/";
    assert LowerAll(s[..11]) == Prefix;
    var t := s[11..][..11];
    assert forall i :: 0 <= i < 11 ==> LowerAll(t)[i] == (Formats[3] + Suffix)[i];
    AcceptedVia(s, 3);
  }

  /** Case does not matter anywhere in the prefix. */
  lemma AcceptsAllUpperCase()
    ensures IsEmbeddedImageUri("DATA:IMAGE/GIF;BASE64")
  {
    var s := "DATA:IMAGE/GIF;BASE64";
    var p := s[..11];
    assert forall i :: 0 <= i < 11 ==> LowerAll(p)[i] == Prefix[i];
    var t := s[11..][..10];
    assert forall i :: 0 <= i < 10 ==> LowerAll(t)[i] == (Formats[1] + Suffix)[i];
    AcceptedVia(s, 1);
  }

  /** A non-image media type, or a prefix that does not start the string, is
      rejected (and so is the empty string). */
  lemma RejectsTextAndUnanchored()
    ensures !IsEmbeddedImageUri("data:text/plain;base64,SGVsbG8=")
    ensures !IsEmbeddedImageUri(" data:image/png;base64")
    ensures !IsEmbeddedImageUri("")
  {
    MismatchRejects("data:text/plain;base64,SGVsbG8=", Prefix, 5);
    MismatchRejects(" data:image/png;base64", Prefix, 0);
  }

  /** An image type outside the five is rejected. */
  lemma RejectsTiff()
    ensures !IsEmbeddedImageUri("data:image/tiff;base64,AAAA")
  {
    var rest := "data:image/tiff;base64,AAAA"[|Prefix|..];
    MatchesOneOfMeansSome(rest, Formats);
    forall k | 0 <= k < |Formats|
      ensures !StartsWithIgnoringCase(rest, Formats[k] + Suffix)
    {
      MismatchRejects(rest, Formats[k] + Suffix, 0);
    }
  }

  /** An image data URL without `;base64` is rejected. */
  lemma RejectsMissingBase64()
    ensures !IsEmbeddedImageUri("data:image/png,AAAA")
  {
    var rest := "data:image/png,AAAA"[|Prefix|..];
    MatchesOneOfMeansSome(rest, Formats);
    forall k | 0 <= k < |Formats|
      ensures !StartsWithIgnoringCase(rest, Formats[k] + Suffix)
    {
      MismatchRejects(rest, Formats[k] + Suffix, if k == 0 then 3 else 0);
    }
  }
}
