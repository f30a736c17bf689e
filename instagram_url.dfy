/** The check `/instagram\.com\/(p|reel|tv|stories)\/[A-Za-z0-9_-]+/.test(url)`
    that the fetch-media handler applies to a non-empty url. The pattern has
    no anchors, so `test` succeeds when the pattern matches at SOME position;
    and because `+` is satisfied by one character, a match is the text
    `instagram.com/<segment>/` followed by one id character. */
module InstagramUrl {

  const DOMAIN: string := "instagram.com/"

  /** The alternatives of `(p|reel|tv|stories)`. */
  const SEGMENTS: seq<string> := ["p", "reel", "tv", "stories"]

  /** The literal part of the pattern for one alternative. */
  function PathPrefix(segment: string): string {
    DOMAIN + segment + "/"
  }

  /** The class `[A-Za-z0-9_-]` (the final `-` is literal). */
  predicate IdChar(c: char) {
    ('A' <= c <= 'Z') || ('a' <= c <= 'z') || ('0' <= c <= '9') || c == '_' || c == '-'
  }

  /** `t` occurs in `s` starting at index `i`. */
  predicate OccursAt(s: string, t: string, i: int) {
    0 <= i && i + |t| <= |s| && s[i..i + |t|] == t
  }

  /** `t` is a substring of `s`. */
  predicate Contains(s: string, t: string) {
    exists i :: 0 <= i <= |s| && OccursAt(s, t, i)
  }

  /** The pattern, alternative `segment`, matches `s` at index `i`. */
  predicate MatchesAt(s: string, i: int, segment: string) {
    OccursAt(s, PathPrefix(segment), i) && i + |PathPrefix(segment)| < |s|
    && IdChar(s[i + |PathPrefix(segment)|])
  }

  /** `instagramPattern.test(s)`: a match at some position, for some
      alternative. Case-sensitive, as the pattern carries no `i` flag. The
      shortest match, `instagram.com/p/` and one id character, is 17
      characters long, so no shorter text is accepted. */
  predicate IsPostUrl(s: string)
    ensures IsPostUrl(s) ==> |s| >= |DOMAIN| + 3
  {
    exists i, segment :: 0 <= i < |s| && segment in SEGMENTS && MatchesAt(s, i, segment)
  }

  /** Acceptance, stated on substrings: the url is accepted iff it contains
      `instagram.com/`, one of the four segments, `/` and one id character. */
  lemma PostUrlIffContainsPath(s: string)
    ensures IsPostUrl(s) <==>
      exists segment, c :: segment in SEGMENTS && IdChar(c) && Contains(s, PathPrefix(segment) + [c])
  {
    if IsPostUrl(s) {
      var i, segment :| 0 <= i < |s| && segment in SEGMENTS && MatchesAt(s, i, segment);
      var p := PathPrefix(segment);
      var c := s[i + |p|];
      assert s[i..i + |p| + 1] == s[i..i + |p|] + [c];
      assert OccursAt(s, p + [c], i);
      assert Contains(s, p + [c]);
    }
    if exists segment, c :: segment in SEGMENTS && IdChar(c) && Contains(s, PathPrefix(segment) + [c]) {
      var segment, c :| segment in SEGMENTS && IdChar(c) && Contains(s, PathPrefix(segment) + [c]);
      var p := PathPrefix(segment);
      var i :| 0 <= i <= |s| && OccursAt(s, p + [c], i);
      assert s[i..i + |p|] == s[i..i + |p| + 1][..|p|];
      assert s[i + |p|] == s[i..i + |p| + 1][|p|];
      assert MatchesAt(s, i, segment);
    }
  }

  /** Every canonical post url is accepted, whatever comes before it (scheme,
      `www.`) and after it (more id characters, `/`, a query string). */
  lemma AcceptsPostPath(before: string, segment: string, id: string, after: string)
    requires segment in SEGMENTS
    requires |id| > 0 && forall k :: 0 <= k < |id| ==> IdChar(id[k])
    ensures IsPostUrl(before + PathPrefix(segment) + id + after)
  {
    var s := before + PathPrefix(segment) + id + after;
    var p := PathPrefix(segment);
    var i := |before|;
    assert s[i..i + |p|] == p;
    assert s[i + |p|] == id[0];
    assert MatchesAt(s, i, segment);
  }

  /** The test is unanchored: text around an accepted url never rejects it. */
  lemma AcceptedInAnyContext(s: string, before: string, after: string)
    requires IsPostUrl(s)
    ensures IsPostUrl(before + s + after)
  {
    var i, segment :| 0 <= i < |s| && segment in SEGMENTS && MatchesAt(s, i, segment);
    var t := before + s + after;
    var p := PathPrefix(segment);
    assert t[|before| + i..|before| + i + |p|] == s[i..i + |p|];
    assert t[|before| + i + |p|] == s[i + |p|];
    assert MatchesAt(t, |before| + i, segment);
  }

  /** A string that contains none of `instagram.com/p/`, `instagram.com/reel/`,
      `instagram.com/tv/`, `instagram.com/stories/` is rejected. */
  lemma RejectsWithoutSegment(s: string)
    requires forall segment :: segment in SEGMENTS ==> !Contains(s, PathPrefix(segment))
    ensures !IsPostUrl(s)
  {
  }

  /** Where the pattern matches, the text starts with the `i` of `instagram`. */
  lemma MatchStartsWithLetterI(s: string, i: int, segment: string)
    requires MatchesAt(s, i, segment)
    ensures 0 <= i < |s| && s[i] == 'i'
  {
    assert s[i..i + |PathPrefix(segment)|][0] == PathPrefix(segment)[0];
  }

  /** Every match begins with the lower-case `i` of `instagram`, so a string
      without that letter is rejected. */
  lemma RejectsWithoutLetterI(s: string)
    requires 'i' !in s
    ensures !IsPostUrl(s)
  {
    if IsPostUrl(s) {
      var i, segment :| 0 <= i < |s| && segment in SEGMENTS && MatchesAt(s, i, segment);
      MatchStartsWithLetterI(s, i, segment);
      assert false;
    }
  }

  /** The pattern is case-sensitive: a capital `I` in the domain rejects. */
  lemma CapitalDomainRejected()
    ensures !IsPostUrl("https://Instagram.com/p/ABC123")
  {
    RejectsWithoutLetterI("https://Instagram.com/p/ABC123");
  }

  /** `https://instagram.com/p/ABC123` is accepted. */
  lemma CanonicalPostAccepted()
    ensures IsPostUrl("https://instagram.com/p/ABC123")
  {
    var s := "https://instagram.com/p/ABC123";
    assert PathPrefix("p") == "instagram.com/p/";
    assert s == "https://" + PathPrefix("p") + "ABC123" + "";
    AcceptsPostPath("https://", "p", "ABC123", "");
  }

  /** A reel url with `www.` and a query string is accepted. */
  lemma ReelWithQueryAccepted()
    ensures IsPostUrl("https://www.instagram.com/reel/C0de_-9/?igsh=xyz")
  {
    var s := "https://www.instagram.com/reel/C0de_-9/?igsh=xyz";
    var before, id, after := "https://www.", "C0de_-9", "/?igsh=xyz";
    assert PathPrefix("reel") == "instagram.com/reel/";
    assert before + "instagram.com/reel/" == "https://www.instagram.com/reel/";
    assert id + after == "C0de_-9/?igsh=xyz";
    assert s == "https://www.instagram.com/reel/" + "C0de_-9/?igsh=xyz";
    AcceptsPostPath(before, "reel", id, after);
    assert before + PathPrefix("reel") + id + after == s;
  }

  /** The texts a JavaScript number prints as (digits, a point, a sign,
      an exponent `e`, or `Infinity` and `-Infinity`) are all rejected:
      the first kind has no lower-case `i`, and the two infinities are too
      short for a match. */
  lemma NumberTextRejected(t: string)
    requires (forall k :: 0 <= k < |t| ==> t[k] in "0123456789.e+-") || t == "Infinity" || t == "-Infinity"
    ensures !IsPostUrl(t)
  {
    if t != "Infinity" && t != "-Infinity" {
      RejectsWithoutLetterI(t);
    }
  }
}
