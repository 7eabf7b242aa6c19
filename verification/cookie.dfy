/**
 * Extraction of the session token from the Cookie header: the first match of
 * the unanchored regular expression `session=([^;]+)`, capture group 1.
 */
module Cookie {
  import opened Wrappers

  /** The literal part of the pattern. */
  const Needle: string := "session="

  /** The pattern matches at position `i`: the literal, then at least one non-`;` character. */
  predicate MatchesAt(header: string, i: nat) {
    i + |Needle| < |header|
    && header[i..i + |Needle|] == Needle
    && header[i + |Needle|] != ';'
  }

  /** The greedy `[^;]+` run: the longest stretch of non-`;` characters starting at `j`. */
  function TokenRun(header: string, j: nat): (run: string)
    requires j <= |header|
    ensures j + |run| <= |header| && run == header[j..j + |run|]
    ensures ';' !in run
    ensures j + |run| == |header| || header[j + |run|] == ';'
    decreases |header| - j
  {
    if j < |header| && header[j] != ';' then [header[j]] + TokenRun(header, j + 1) else []
  }

  /** Leftmost position at or after `from` where the pattern matches. */
  function FirstMatch(header: string, from: nat): (pos: Option<nat>)
    ensures pos.Some? ==> from <= pos.value && MatchesAt(header, pos.value)
    ensures pos.Some? ==> forall j :: from <= j < pos.value ==> !MatchesAt(header, j)
    ensures pos.None? ==> forall j :: from <= j ==> !MatchesAt(header, j)
    decreases |header| - from
  {
    if from + |Needle| >= |header| then None
    else if MatchesAt(header, from) then Some(from)
    else FirstMatch(header, from + 1)
  }

  /** `request.headers.get('Cookie')?.match(/session=([^;]+)/)?.[1]`. */
  function ExtractSessionToken(cookie: Option<string>): (token: Option<string>)
    ensures token.Some? ==> token.value != [] && ';' !in token.value
    ensures token.Some? <==> cookie.Some? && exists i: nat :: MatchesAt(cookie.value, i)
    ensures token.Some? ==> exists i: nat :: MatchesAt(cookie.value, i)
                                      && (forall j :: 0 <= j < i ==> !MatchesAt(cookie.value, j))
                                      && token.value == TokenRun(cookie.value, i + |Needle|)
  {
    match cookie
    case None => None
    case Some(header) =>
      match FirstMatch(header, 0)
      case None => None
      case Some(i) => Some(TokenRun(header, i + |Needle|))
  }

  /** The cookie the login response sets, sent back alone, yields its token again. */
  lemma CookieRoundTrip(token: string)
    requires token != [] && ';' !in token
    ensures ExtractSessionToken(Some(Needle + token)) == Some(token)
  {
    var header := Needle + token;
    assert header[..|Needle|] == Needle;
    assert MatchesAt(header, 0);
    TokenRunToEnd(header, |Needle|);
    assert header[|Needle|..] == token;
  }

  /** With no `;` after `j`, the run reaches the end of the header. */
  lemma {:induction false} TokenRunToEnd(header: string, j: nat)
    requires j <= |header| && ';' !in header[j..]
    ensures TokenRun(header, j) == header[j..]
    decreases |header| - j
  {
    if j < |header| {
      assert header[j] in header[j..];
      assert ';' !in header[j + 1..] by {
        assert header[j + 1..] == header[j..][1..];
      }
      TokenRunToEnd(header, j + 1);
      assert header[j..] == [header[j]] + header[j + 1..];
    }
  }
}
